# Bolt: the main window's view coordinator and the episode adapter

Bolt is a GTK/Adwaita podcast client. This project models its two pieces of
logic in Dafny and proves properties of them:

- **The main window** (`src/window.rs`). The window decides which of five
  top-level screens its main stack shows (Loading, Empty, Podcasts, Discover,
  ShowDetails). It loads the persisted show count at startup, binds the
  discover and episodes list models, and installs the signal handlers that
  move between screens, gate the discover search, toggle the refresh button
  and open a show's details.
  - `window_spec.dfy` (module `WindowSpec`) gives the window's state as a
    value (`WindowState`), each handler's effect as a function, and the
    handlers together as `Step` over an `Event`. `Run` applies a sequence of
    events. The lemmas state the properties one event at a time and over
    whole runs.
  - `window.dfy` (module `Window`) is the window as a class, `BoltWindow`.
    Its fields are updated in place by `ShowView`, `LoadShows`/`CompleteLoad`,
    the two setup methods and one method per signal handler. Each method is
    proved to have exactly the effect `WindowSpec` gives it.
- **The episode adapter** (`bolt_gtk/src/data/episode/object.rs`). This is
  the construct-only, nine-property `EpisodeObject` that the episode lists
  display, with its two constructors. `episode_object.dfy` (module
  `EpisodeObjects`) models it as an immutable datatype with two pure
  functions.
- `wrappers.dfy` holds `Option` and its `filter`.

Modelling choices:

- The sub-views' operations are collaborators whose code is not part of this
  model. These are `load_episodes`, `search_shows` and `load_details`. Each
  call is appended to a log (`calls`), so the order of calls and their
  arguments are kept. The show handed to `load_details` is also kept as the
  show the details view holds.
- The startup load is a future that awaits a blocking count query. It is
  modelled as two sequential steps. `LoadShows` shows Loading and marks the
  load in flight. `CompleteLoad(count)` runs the code after the await, given
  the count the query returned.
- The discover list model is filled by the discover view's own search code,
  which is not part of this model. So replacing the model's contents is an
  outside event, `DiscoverModelReplaced`, whose contents are arbitrary.
- The search gate compares `String::len()`, which is a UTF-8 byte count, with
  3. `Utf8Len` counts bytes per scalar value.
- A list child's index is an `i32`. Its conversion to `u32` panics on a
  negative index, so `index >= 0` is a precondition of activation.

Behaviours of the code worth knowing:

- The search gate counts bytes, not characters. Two characters such as "éé"
  already pass it (`SearchGateExamples`).
- Both back buttons act from any screen. Discover's back button shows the
  podcasts even when discover was opened from the empty screen.
- The details view's show is not released when the details screen is left.
- A title from the API is always present, even when empty. Only a stored
  episode can have an absent title.

## Model

| member | source | states |
|---|---|---|
| `EpisodeObjects.NonEmpty` | bolt_gtk/src/data/episode/object.rs:72-80 | `Some(text).filter(non-empty)` is absent exactly when the text is empty, and otherwise holds the text unchanged |
| `EpisodeObjects.FromApi` | bolt_gtk/src/data/episode/object.rs:67-87 | from an API episode: description, url and image-url are absent iff the source text is empty and equal to it otherwise; the title is always present and equal to the source title; queued is 0; id, media-url and date-published are copied; show-id is feed_id; no optional text is present-but-empty |
| `EpisodeObjects.ApiRoundTrip` | bolt_gtk/src/data/episode/object.rs:67-87 | reading the adapter's properties back (absent read as "") gives back the API episode: the constructor loses nothing |
| `EpisodeObjects.FromApiInjective` | bolt_gtk/src/data/episode/object.rs:67-87 | distinct API episodes give distinct adapters |
| `EpisodeObjects.EmptyDescriptionExample` | bolt_gtk/src/data/episode/object.rs:72-76 | an empty description with a non-empty link gives an absent description and a present link equal to the original |
| `EpisodeObjects.EmptyTitleKept` | bolt_gtk/src/data/episode/object.rs:71 | an empty API title is kept as a present, empty title |
| `EpisodeObjects.FromStored` | bolt_gtk/src/data/episode/object.rs:89-103 | from a stored episode: reading the nine properties back yields the stored episode |
| `EpisodeObjects.StoredRoundTrip` | bolt_gtk/src/data/episode/object.rs:89-103 | every adapter is rebuilt unchanged from its own stored view |
| `EpisodeObjects.FromStoredInjective` | bolt_gtk/src/data/episode/object.rs:89-103 | distinct stored episodes give distinct adapters |
| `EpisodeObjects.StoredNotNormalised` | bolt_gtk/src/data/episode/object.rs:94-98 | the stored constructor does not normalise: the description and the queued ordinal are kept as stored, so a present-but-empty description stays present and empty |
| `WindowSpec.ChildName` | src/window.rs:114-128 | each screen's stack child name reads back as that screen |
| `WindowSpec.ChildNamesDistinct` | src/window.rs:117-127 | the five child names are pairwise distinct |
| `WindowSpec.ShowView` | src/window.rs:114-128 | after `show_view(v)` the stack shows `v`, and nothing but the main stack's child changes |
| `WindowSpec.ShowViewIdempotent` | src/window.rs:114-128 | showing a screen twice is the same as showing it once |
| `WindowSpec.Utf8Width` | src/window.rs:177 | a scalar value takes 1 to 4 UTF-8 bytes, and 1 exactly when it is ASCII |
| `WindowSpec.Utf8LenBounds` | src/window.rs:177 | a text's byte length lies between its character count and four times it |
| `WindowSpec.Utf8LenAscii` | src/window.rs:177 | an ASCII text's byte length is its character count |
| `WindowSpec.SearchGateByCharacters` | src/window.rs:177 | more than 3 characters always pass the search gate, and an empty text never does |
| `WindowSpec.SearchGateExamples` | src/window.rs:177 | "abc" fails the gate, "abcd" passes, and two two-byte characters pass |
| `WindowSpec.LoadShows` | src/window.rs:130-131 | startup shows Loading and puts the count load in flight; the call log, refresh button, models and details are kept |
| `WindowSpec.CompleteLoad` | src/window.rs:133-144 | a positive count appends exactly one `load_episodes` call and shows Podcasts; any other count shows Empty and calls nothing; the models, refresh button and details are untouched |
| `WindowSpec.StartupEntersLoading` | src/window.rs:101-112 | the new window shows Loading with the load in flight, both models bound and empty, and no collaborator called |
| `WindowSpec.StartupOutcome` | src/window.rs:130-145 | from a new window, the completed load gives Podcasts with the call log `[load_episodes]` when the count is positive, and Empty with an empty log otherwise |
| `WindowSpec.ShowAt` | src/window.rs:209 | `item(index).and_downcast` yields a show exactly when the index is in range and the item there is a show, and then that show |
| `WindowSpec.DiscoverButtons` | src/window.rs:160-170 | both discover buttons show Discover from any state and change nothing else |
| `WindowSpec.BackButtons` | src/window.rs:219-231 | discover's back button shows Podcasts from any state; show details' back button shows Discover; nothing else changes |
| `WindowSpec.SearchChangedCalls` | src/window.rs:175-181 | a search change calls `search_shows` once with the text iff the text is longer than 3 bytes, and otherwise leaves the state unchanged |
| `WindowSpec.RefreshVisibility` | src/window.rs:183-195 | the refresh button is made visible iff the podcasts stack's child is named "episodes"; an unnamed child leaves everything unchanged; nothing but the button changes |
| `WindowSpec.RefreshClickKeepsView` | src/window.rs:197-201 | a refresh click appends one `load_episodes` call and leaves the screen unchanged |
| `WindowSpec.ChildActivation` | src/window.rs:205-217 | activation shows ShowDetails, with `load_details` called with that show and the show held, iff the model is bound and holds a show at the index; otherwise the state is unchanged |
| `WindowSpec.StepEpisodeLoads` | src/window.rs:138-139 | each event adds one `load_episodes` call when it is a refresh click or a load completing with a positive count, and none otherwise |
| `WindowSpec.StepSearches` | src/window.rs:175-181 | each event adds a `search_shows` query only when it is a search change passing the gate, and then with its text |
| `WindowSpec.RunEpisodeLoads` | src/window.rs:130-201 | over any run, the `load_episodes` calls are one per refresh click plus one for a startup load that found shows, and no others |
| `WindowSpec.RunSearches` | src/window.rs:175-181 | over any run, the `search_shows` queries are exactly the texts longer than 3 bytes of the search changes, in order |
| `WindowSpec.StepKeepsDetailsConsistent` | src/window.rs:205-231 | each event keeps the details view's show equal to the last `load_details` argument, and keeps it present whenever ShowDetails is visible |
| `WindowSpec.RunKeepsDetailsConsistent` | src/window.rs:205-231 | every run keeps that invariant: ShowDetails is never visible without a show loaded into it |
| `WindowSpec.CreatedIsDetailsConsistent` | src/window.rs:101-112 | the new window satisfies that invariant |
| `WindowSpec.EndToEndScenario` | src/window.rs:130-231 | count 0 gives Empty; discover gives Discover; activating show 42 at position 2 gives ShowDetails holding 42; back gives Discover; the only call is `load_details(42)` |
| `Window.BoltWindow.constructor` | src/window.rs:101-112 | `new` ends in the state `Created` describes: Loading, load in flight, no calls |
| `Window.BoltWindow.ShowView` | src/window.rs:114-128 | sets the main stack's child as `WindowSpec.ShowView` does |
| `Window.BoltWindow.LoadShows` | src/window.rs:130-131 | the first phase of `load_shows`, as `WindowSpec.LoadShows` |
| `Window.BoltWindow.CompleteLoad` | src/window.rs:133-144 | the phase after the await, as `WindowSpec.CompleteLoad` and as the `ShowCountLoaded` event |
| `Window.BoltWindow.SetupDiscover` | src/window.rs:147-150 | binds an empty discover model |
| `Window.BoltWindow.SetupEpisodes` | src/window.rs:152-155 | binds an empty episodes model |
| `Window.BoltWindow.OnEmptyDiscoverClicked` | src/window.rs:160-164 | the empty view's discover button has exactly the effect of its event |
| `Window.BoltWindow.OnDiscoverClicked` | src/window.rs:166-170 | the header's discover button has exactly the effect of its event |
| `Window.BoltWindow.OnSearchChanged` | src/window.rs:175-181 | the search handler has exactly the effect of its event |
| `Window.BoltWindow.OnPodcastsChildChanged` | src/window.rs:183-195 | the podcasts stack handler has exactly the effect of its event |
| `Window.BoltWindow.OnRefreshClicked` | src/window.rs:197-201 | the refresh handler has exactly the effect of its event |
| `Window.BoltWindow.OnChildActivated` | src/window.rs:205-217 | the activation handler has exactly the effect of its event |
| `Window.BoltWindow.OnDiscoverBackClicked` | src/window.rs:219-223 | discover's back handler has exactly the effect of its event |
| `Window.BoltWindow.OnDetailsBackClicked` | src/window.rs:225-231 | show details' back handler has exactly the effect of its event |
| `Window.BoltWindow.OnDiscoverModelReplaced` | src/window.rs:207 | an outside event, not a handler of this file: the discover view replacing the contents of the model that the activation handler reads; only that model changes |

## Left out

- Widget templates, the widget tree and the GObject subclass boilerplate (src/window.rs:46-98): these are layout, not behaviour.
- The threads behind `glib::spawn_future_local` and `gio::spawn_blocking`: the startup load is modelled as two sequential steps, not as concurrency.
- A failed show-count load panics (`expect`), so it has no state to model. The count is a parameter of `CompleteLoad`, and the repository query behind it is not part of this model.
- `load_show_count`, `EpisodesView::load_episodes`, `DiscoverView::search_shows` and `ShowDetails::load_details` are not part of this model. Their calls are logged, but what they do to their own views is not modelled. In particular, the episodes model stays as bound.
- `ShowObject` is reduced to its show id, because the window reads no other property of it.
- The discover model is a `ListStore` of `ShowObject`. The model keeps the handler's failed-downcast branch with an `OtherItem`, although such a store never holds one.
- The search handler reads `entry.text()` twice. The model assumes both reads return the same text.
- A negative child index panics in the source. It is a precondition in the model.
- The `Default` impl of `EpisodeObject` (bolt_gtk/src/data/episode/object.rs:61-65): its values come from GObject property defaults that are not part of this model.
- The API episode's field types are not part of this model. Its integers are taken to be `i64`, like the adapter's properties.
- EpisodeObjects.FromApi: the `queued` value is the bare literal `0` (bolt_gtk/src/data/episode/object.rs:82), which Rust types as `i32`, while the property is declared `i64` (object.rs:41). Whether GLib converts that value or the builder panics on the type mismatch depends on GLib's property validation, which is not part of this model; the model takes the conversion to succeed and `queued` to be 0.
- `src/explore/card.rs` and `src/show_details/episode_row.rs`: they only set labels. The row's date formatting is a call into the `chrono` library.
