/** The hand-off between the two applications: a build session publishes to
    the storage slot and a presentation loads what was published, whether it
    is opened at the URL the publish opens (which names the demo project) or
    without a `projectId` query (the demo project is the default). */
module PublishFlow {
  import opened Wrappers
  import opened Types
  import Api
  import VadSelection
  import BuildApp
  import PresentApp

  /** The build session and the presentation agree on the project id. */
  lemma SameDemoProject()
    ensures BuildApp.DemoProjectId == PresentApp.DemoProjectId
    ensures PresentApp.RequestedProjectId(None) == BuildApp.DemoProjectId
  {
  }

  /** Build the three screens, publish, then open the presentation at the
      URL the publish opened (its `projectId` query names the demo project):
      it finds exactly the published bundle, with the default theme, and
      selects the VADs the inputs layout names. */
  method PublishThenPresent(home: string, vads: string, results: string)
    returns (loaded: Option<BuildConfig>, selected: seq<string>, urls: seq<string>)
    requires home != "" && vads != "" && results != ""
    ensures loaded == Some(BuildConfig(BuildApp.DemoProjectId, DefaultTheme, Some(home), Some(vads), Some(results)))
    ensures selected == VadSelection.Detect(Some(vads))
    ensures urls == [BuildApp.PresentUrl]
  {
    var store := new Api.Store();
    var build := new BuildApp.BuildSession(store);
    build.SetHomeData(Some(home));
    build.SetVadData(Some(vads));
    build.SetResultsData(Some(results));
    build.HandlePublish();
    urls := build.openedUrls;
    var present := new PresentApp.PresentSession();
    present.Load(store, Some(BuildApp.DemoProjectId));
    loaded := present.config;
    selected := present.SelectedVads();
  }

  /** Publishing with an unbuilt screen writes nothing, so a presentation
      opened on a fresh slot shows the "no build configuration" state. */
  method PublishIncompleteThenPresent(home: Layout, vads: Layout, results: Layout)
    returns (notFound: bool, urls: seq<string>)
    requires !BuildApp.IsPageBuilt(home) || !BuildApp.IsPageBuilt(vads) || !BuildApp.IsPageBuilt(results)
    ensures notFound
    ensures urls == []
  {
    var store := new Api.Store();
    var build := new BuildApp.BuildSession(store);
    build.SetHomeData(home);
    build.SetVadData(vads);
    build.SetResultsData(results);
    build.HandlePublish();
    urls := build.openedUrls;
    var present := new PresentApp.PresentSession();
    present.Load(store, None);
    notFound := present.NotFound();
  }

  /** Saving without publishing still writes the slot, so a presentation loads
      even an unfinished bundle; only the Publish button is gated. */
  method SaveThenPresent(home: Layout, vads: Layout, results: Layout)
    returns (loaded: Option<BuildConfig>, urls: seq<string>)
    ensures loaded == Some(BuildConfig(BuildApp.DemoProjectId, DefaultTheme, home, vads, results))
    ensures urls == []
  {
    var store := new Api.Store();
    var build := new BuildApp.BuildSession(store);
    build.SetHomeData(home);
    build.SetVadData(vads);
    build.SetResultsData(results);
    build.HandleSave();
    urls := build.openedUrls;
    var present := new PresentApp.PresentSession();
    present.Load(store, None);
    loaded := present.config;
  }
}
