/**
 * The main window, whose fields its methods and signal handlers update in
 * place. Every method is proved to have exactly the effect that module
 * `WindowSpec` gives it, where the properties of those effects are proved.
 */
module Window {
  import opened Wrappers
  import opened WindowSpec
  import EpisodeObjects

  class BoltWindow {
    /** The name of the main stack's visible child. */
    var mainStackChild: string
    /** Whether the header's refresh button is visible. */
    var refreshVisible: bool
    /** The discover view's list model, once bound. */
    var discoverModel: Option<seq<ListItem>>
    /** The episodes view's list model, once bound. */
    var episodesModel: Option<seq<EpisodeObjects.EpisodeObject>>
    /** The show last handed to the show-details view. */
    var detailsShow: Option<ShowObject>
    /** The calls made to the sub-views' operations, in order. */
    var calls: seq<Call>
    /** Whether the startup show-count load is in flight. */
    var loadPending: bool

    function State(): WindowState
      reads this
    {
      WindowState(mainStackChild, refreshVisible, discoverModel, episodesModel,
                  detailsShow, calls, loadPending)
    }

    /** `BoltWindow::new`, from the child and button visibility the template
        starts with. */
    constructor (templateChild: string, refreshInitiallyVisible: bool)
      ensures State() == Created(templateChild, refreshInitiallyVisible)
      ensures CurrentView(State()) == Some(Loading) && loadPending && calls == []
    {
      mainStackChild := templateChild;
      refreshVisible := refreshInitiallyVisible;
      discoverModel := None;
      episodesModel := None;
      detailsShow := None;
      calls := [];
      loadPending := false;
      new;
      LoadShows();
      SetupDiscover();
      SetupEpisodes();
    }

    method ShowView(view: View)
      modifies this
      ensures State() == WindowSpec.ShowView(old(State()), view)
      ensures CurrentView(State()) == Some(view)
    {
      match view
      case Empty => mainStackChild := "empty-view";
      case Loading => mainStackChild := "loading-view";
      case Podcasts => mainStackChild := "podcasts-view";
      case Discover => mainStackChild := "discover-view";
      case ShowDetails => mainStackChild := "show-details-view";
    }

    /** `load_shows` up to its await. */
    method LoadShows()
      modifies this
      ensures State() == WindowSpec.LoadShows(old(State()))
    {
      ShowView(Loading);
      loadPending := true;
    }

    /** `load_shows` after its await, given the loaded show count. */
    method CompleteLoad(count: int)
      requires loadPending
      modifies this
      ensures State() == WindowSpec.CompleteLoad(old(State()), count)
      ensures State() == Step(old(State()), ShowCountLoaded(count))
    {
      loadPending := false;
      if count > 0 {
        calls := calls + [LoadEpisodes];
        ShowView(Podcasts);
      } else {
        ShowView(Empty);
      }
    }

    method SetupDiscover()
      modifies this
      ensures State() == WindowSpec.SetupDiscover(old(State()))
    {
      discoverModel := Some([]);
    }

    method SetupEpisodes()
      modifies this
      ensures State() == WindowSpec.SetupEpisodes(old(State()))
    {
      episodesModel := Some([]);
    }

    /** The empty view's discover button. */
    method OnEmptyDiscoverClicked()
      modifies this
      ensures State() == Step(old(State()), EmptyDiscoverClicked)
    {
      ShowView(Discover);
    }

    /** The header's discover button. */
    method OnDiscoverClicked()
      modifies this
      ensures State() == Step(old(State()), DiscoverClicked)
    {
      ShowView(Discover);
    }

    /** The discover search entry's search-changed handler. */
    method OnSearchChanged(text: string)
      modifies this
      ensures State() == Step(old(State()), SearchChanged(text))
    {
      if Utf8Len(text) > 3 {
        calls := calls + [SearchShows(text)];
      }
    }

    /** The podcasts stack's visible-child handler. */
    method OnPodcastsChildChanged(name: Option<string>)
      modifies this
      ensures State() == Step(old(State()), PodcastsChildChanged(name))
    {
      if name.Some? {
        if name.value == "episodes" {
          refreshVisible := true;
        } else {
          refreshVisible := false;
        }
      }
    }

    /** The refresh button's handler. */
    method OnRefreshClicked()
      modifies this
      ensures State() == Step(old(State()), RefreshClicked)
    {
      calls := calls + [LoadEpisodes];
    }

    /** The discover results' child-activated handler. */
    method OnChildActivated(index: i32)
      requires index >= 0
      modifies this
      ensures State() == Step(old(State()), ChildActivated(index))
    {
      if discoverModel.Some? {
        var items := discoverModel.value;
        var i := index as nat;
        if i < |items| && items[i].ShowItem? {
          var show := items[i].show;
          calls := calls + [LoadDetails(show)];
          detailsShow := Some(show);
          ShowView(ShowDetails);
        }
      }
    }

    /** The discover view's back button. */
    method OnDiscoverBackClicked()
      modifies this
      ensures State() == Step(old(State()), DiscoverBackClicked)
    {
      ShowView(Podcasts);
    }

    /** The show-details view's back button. */
    method OnDetailsBackClicked()
      modifies this
      ensures State() == Step(old(State()), DetailsBackClicked)
    {
      ShowView(Discover);
    }

    /** The discover view replacing its model's contents (its search results). */
    method OnDiscoverModelReplaced(model: Option<seq<ListItem>>)
      modifies this
      ensures State() == Step(old(State()), DiscoverModelReplaced(model))
    {
      discoverModel := model;
    }
  }
}
