/**
 * The episode adapter: the immutable, nine-property record that the episode
 * list widgets display, and its two constructors, one from an episode fetched
 * from the podcast API and one from an episode read back from storage.
 *
 * Every property is construct-only, so an adapter is a value: nothing changes
 * it after construction, and an update builds a new one.
 */
module EpisodeObjects {
  import opened Wrappers

  /** Rust's `i64`, the type of every integer property of the adapter. */
  newtype i64 = x: int | -0x8000_0000_0000_0000 <= x < 0x8000_0000_0000_0000

  /** The fields of an API episode that the adapter reads. */
  datatype ApiEpisode = ApiEpisode(
    id: i64,
    title: string,
    description: string,
    link: string,
    image: string,
    enclosureUrl: string,
    datePublished: i64,
    feedId: i64)

  /** An episode as the repository stores it. */
  datatype Episode = Episode(
    id: i64,
    title: Option<string>,
    description: Option<string>,
    url: Option<string>,
    imageUrl: Option<string>,
    mediaUrl: string,
    queued: i64,
    datePublished: i64,
    showId: i64)

  /** The adapter's properties: `id`, `title`, `description`, `url`,
      `image-url`, `media-url`, `queued`, `date-published`, `show-id`. */
  datatype EpisodeObject = EpisodeObject(
    id: i64,
    title: Option<string>,
    description: Option<string>,
    url: Option<string>,
    imageUrl: Option<string>,
    mediaUrl: string,
    queued: i64,
    datePublished: i64,
    showId: i64)

  /** `Some(text).filter(|t| !t.is_empty())`: an empty text becomes absent. */
  function NonEmpty(text: string): (r: Option<string>)
    ensures r.None? <==> text == ""
    ensures r.Some? ==> r.value == text
  {
    Some(text).Filter(t => t != "")
  }

  /** No optional text property is present but empty. */
  predicate NoPresentEmpty(o: EpisodeObject)
  {
    && o.description != Some("")
    && o.url != Some("")
    && o.imageUrl != Some("")
  }

  /** The adapter built from an API episode: description, link and image are
      normalised (empty becomes absent), the title is kept as it is even when
      empty, and the episode is not queued. */
  function FromApi(e: ApiEpisode): (o: EpisodeObject)
    ensures o.id == e.id && o.mediaUrl == e.enclosureUrl
    ensures o.datePublished == e.datePublished && o.showId == e.feedId
    ensures o.title == Some(e.title)
    ensures o.description.None? <==> e.description == ""
    ensures o.description.Some? ==> o.description.value == e.description
    ensures o.url.None? <==> e.link == ""
    ensures o.url.Some? ==> o.url.value == e.link
    ensures o.imageUrl.None? <==> e.image == ""
    ensures o.imageUrl.Some? ==> o.imageUrl.value == e.image
    ensures o.queued == 0
    ensures NoPresentEmpty(o)
  {
    EpisodeObject(
      id := e.id,
      title := Some(e.title),
      description := NonEmpty(e.description),
      url := NonEmpty(e.link),
      imageUrl := NonEmpty(e.image),
      mediaUrl := e.enclosureUrl,
      queued := 0,
      datePublished := e.datePublished,
      showId := e.feedId)
  }

  /** Reads an adapter's properties back as a stored episode. */
  function StoredView(o: EpisodeObject): Episode
  {
    Episode(o.id, o.title, o.description, o.url, o.imageUrl, o.mediaUrl,
            o.queued, o.datePublished, o.showId)
  }

  /** The adapter built from a stored episode: every field copied verbatim,
      so reading the properties back yields the stored episode. */
  function FromStored(e: Episode): (o: EpisodeObject)
    ensures StoredView(o) == e
  {
    EpisodeObject(
      id := e.id,
      title := e.title,
      description := e.description,
      url := e.url,
      imageUrl := e.imageUrl,
      mediaUrl := e.mediaUrl,
      queued := e.queued,
      datePublished := e.datePublished,
      showId := e.showId)
  }

  /** Reads an adapter's properties back as an API episode, an absent text
      reading as the empty string. */
  function ApiView(o: EpisodeObject): ApiEpisode
  {
    ApiEpisode(o.id, o.title.GetOr(""), o.description.GetOr(""), o.url.GetOr(""),
               o.imageUrl.GetOr(""), o.mediaUrl, o.datePublished, o.showId)
  }

  /** The API constructor loses nothing: every field of the API episode can
      be read back from the adapter. */
  lemma ApiRoundTrip(e: ApiEpisode)
    ensures ApiView(FromApi(e)) == e
  {
  }

  /** Hence two different API episodes never give the same adapter. */
  lemma FromApiInjective(e1: ApiEpisode, e2: ApiEpisode)
    requires FromApi(e1) == FromApi(e2)
    ensures e1 == e2
  {
  }

  /** The stored constructor is onto: every adapter is the one built from
      its own stored view. */
  lemma StoredRoundTrip(o: EpisodeObject)
    ensures FromStored(StoredView(o)) == o
  {
  }

  /** Hence two different stored episodes never give the same adapter. */
  lemma FromStoredInjective(e1: Episode, e2: Episode)
    requires FromStored(e1) == FromStored(e2)
    ensures e1 == e2
  {
  }

  /** Unlike the API constructor, the stored constructor does not normalise:
      a present-but-empty description and the queued ordinal are kept as
      stored, so a stored adapter can hold a present-but-empty text. */
  lemma StoredNotNormalised(e: Episode)
    ensures FromStored(e).description == e.description
    ensures FromStored(e).queued == e.queued
    ensures e.description == Some("") ==> !NoPresentEmpty(FromStored(e))
  {
  }

  /** An empty description with a non-empty link: the description is absent
      and the link present and equal to the original. */
  lemma EmptyDescriptionExample(e: ApiEpisode)
    requires e.description == "" && e.link == "https://example.org/ep1"
    ensures FromApi(e).description == None
    ensures FromApi(e).url == Some("https://example.org/ep1")
  {
  }

  /** An empty title is kept present (and empty): the title is not normalised. */
  lemma EmptyTitleKept(e: ApiEpisode)
    requires e.title == ""
    ensures FromApi(e).title == Some("")
  {
  }
}
