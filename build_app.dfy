/** The build session of src/builder/BuildApp.tsx: three editor layouts (home,
    inputs, results), a stepper that only lets the author move forward once
    the previous screen is built, a zoom control, a view mode, the theme, and
    the Save and Publish buttons that write the bundle to the storage slot.
    Publishing is gated on all three screens being built; a successful
    publish opens the presentation view, recorded here as the URL opened. */
module BuildApp {
  import opened Wrappers
  import opened Types
  import Api
  import VadSelection
  import VadCatalog

  /** The project every build session saves under. */
  const DemoProjectId: string := "demo-project"

  /** The URL a successful publish opens. */
  const PresentUrl: string := "/present?projectId=" + DemoProjectId

  datatype Step = HomeStep | VadsStep | ResultsStep

  /** The stepper, in order: Home, Inputs, Results. */
  const Steps: seq<Step> := [HomeStep, VadsStep, ResultsStep]

  datatype ViewMode = Desktop | Tablet | Mobile

  /** `!!data`: a layout counts as built when it is present and non-empty. */
  predicate IsPageBuilt(data: Layout)
  {
    match data
    case None => false
    case Some(s) => |s| > 0
  }

  lemma PageBuiltMeaning(data: Layout)
    ensures IsPageBuilt(data) <==> data.Some? && data.value != ""
  {
  }

  /** `getViewportWidth`: the canvas width of each view mode. */
  function ViewportWidth(mode: ViewMode): (w: string)
    ensures w == "375px" <==> mode == Mobile
    ensures w == "768px" <==> mode == Tablet
    ensures w == "100%" <==> mode == Desktop
  {
    match mode
    case Mobile => "375px"
    case Tablet => "768px"
    case Desktop => "100%"
  }

  /** `handleThemeChange(mode)`: "light" selects the light theme and any other
      mode the dark theme. */
  function ThemeFor(mode: ThemeMode): (t: ThemeConfig)
    ensures t == LightTheme || t == DarkTheme
    ensures t.mode == Light <==> mode == Light
    ensures t.mode != Custom
  {
    if mode == Light then LightTheme else DarkTheme
  }

  // ---------------------------------------------------------------------------
  // Zoom

  const MinZoom: int := 50
  const MaxZoom: int := 150
  const ZoomStep: int := 10
  const InitialZoom: int := 100

  /** A zoom level the buttons can reach from the initial one. */
  predicate ZoomValid(z: int)
  {
    MinZoom <= z <= MaxZoom && z % ZoomStep == 0
  }

  /** The "−" button: `Math.max(50, zoom - 10)`. */
  function ZoomOut(z: int): (r: int)
    ensures ZoomValid(z) ==> ZoomValid(r)
    ensures r <= z || r == MinZoom
    ensures z - ZoomStep >= MinZoom ==> r == z - ZoomStep
    ensures z - ZoomStep < MinZoom ==> r == MinZoom
  {
    if z - ZoomStep > MinZoom then z - ZoomStep else MinZoom
  }

  /** The "+" button: `Math.min(150, zoom + 10)`. */
  function ZoomIn(z: int): (r: int)
    ensures ZoomValid(z) ==> ZoomValid(r)
    ensures r >= z || r == MaxZoom
    ensures z + ZoomStep <= MaxZoom ==> r == z + ZoomStep
    ensures z + ZoomStep > MaxZoom ==> r == MaxZoom
  {
    if z + ZoomStep < MaxZoom then z + ZoomStep else MaxZoom
  }

  datatype ZoomPress = Minus | Plus

  /** The zoom after a sequence of button presses, in order. */
  function ZoomAfter(z: int, presses: seq<ZoomPress>): int
    decreases |presses|
  {
    if presses == [] then z
    else ZoomAfter(if presses[0] == Minus then ZoomOut(z) else ZoomIn(z), presses[1..])
  }

  /** From any reachable level, and so from the initial 100, no sequence of
      presses leaves [50, 150] or the multiples of 10. */
  lemma {:induction false} ZoomStaysInRange(z: int, presses: seq<ZoomPress>)
    requires ZoomValid(z)
    ensures ZoomValid(ZoomAfter(z, presses))
    decreases |presses|
  {
    if presses != [] {
      var next := if presses[0] == Minus then ZoomOut(z) else ZoomIn(z);
      ZoomStaysInRange(next, presses[1..]);
    }
  }

  lemma InitialZoomValid()
    ensures ZoomValid(InitialZoom)
    ensures forall presses :: ZoomValid(ZoomAfter(InitialZoom, presses))
  {
    forall presses ensures ZoomValid(ZoomAfter(InitialZoom, presses)) {
      ZoomStaysInRange(InitialZoom, presses);
    }
  }

  // ---------------------------------------------------------------------------
  // The session

  /** One mounted `BuildApp`, writing to the shared storage slot. */
  class BuildSession {
    var active: Step
    var homeData: Layout
    var vadData: Layout
    var resultsData: Layout
    var theme: ThemeConfig
    var zoom: int
    var viewMode: ViewMode
    /** The URLs `window.open` was called with, oldest first. */
    var openedUrls: seq<string>
    const store: Api.Store

    /** The zoom stays on the button grid. */
    ghost predicate Valid()
      reads this
    {
      ZoomValid(zoom)
    }

    constructor (store: Api.Store)
      ensures Valid()
      ensures active == HomeStep && homeData == None && vadData == None && resultsData == None
      ensures theme == DefaultTheme && zoom == InitialZoom && viewMode == Desktop && openedUrls == []
      ensures this.store == store
    {
      active := HomeStep;
      homeData := None;
      vadData := None;
      resultsData := None;
      theme := DefaultTheme;
      zoom := InitialZoom;
      viewMode := Desktop;
      openedUrls := [];
      this.store := store;
    }

    /** `isStepCompleted`: the step's own layout is built. */
    predicate IsStepCompleted(step: Step)
      reads this
    {
      match step
      case HomeStep => IsPageBuilt(homeData)
      case VadsStep => IsPageBuilt(vadData)
      case ResultsStep => IsPageBuilt(resultsData)
    }

    /** `canPublish`: all three layouts are built. */
    predicate CanPublish()
      reads this
    {
      IsPageBuilt(homeData) && IsPageBuilt(vadData) && IsPageBuilt(resultsData)
    }

    /** `isClickable` of the step at `index`: the first step, or one whose
        predecessor is completed. */
    predicate IsClickable(index: nat)
      requires index < |Steps|
      reads this
    {
      index == 0 || IsStepCompleted(Steps[index - 1])
    }

    /** The bundle `persistConfig` writes. */
    function Bundle(): (c: BuildConfig)
      reads this
      ensures c.projectId == DemoProjectId && c.theme == theme
      ensures c.homeLayout == homeData && c.vadLayout == vadData && c.resultsLayout == resultsData
    {
      BuildConfig(DemoProjectId, theme, homeData, vadData, resultsData)
    }

    /** `selectedVADs`: the detector applied to the inputs layout. */
    function SelectedVads(): (s: seq<string>)
      reads this
      ensures !IsPageBuilt(vadData) ==> s == []
      ensures forall name :: name in s ==> name in VadCatalog.VadsList
      ensures VadSelection.NoDuplicates(s)
    {
      VadSelection.DetectSpec(vadData);
      VadSelection.Detect(vadData)
    }

    /** Publishing is possible exactly when every stepper step is completed,
        and then every step is clickable. */
    lemma PublishMeansAllStepsDone()
      ensures CanPublish() <==> forall i :: 0 <= i < |Steps| ==> IsStepCompleted(Steps[i])
      ensures CanPublish() ==> forall i :: 0 <= i < |Steps| ==> IsClickable(i)
    {
      if forall i :: 0 <= i < |Steps| ==> IsStepCompleted(Steps[i]) {
        assert IsStepCompleted(Steps[0]) && IsStepCompleted(Steps[1]) && IsStepCompleted(Steps[2]);
      }
    }

    /** Each step asks only for its direct predecessor: the Results step opens
        once the Inputs screen is built, whatever the Home screen holds. */
    lemma ClickableSteps()
      ensures IsClickable(0)
      ensures IsClickable(1) <==> IsPageBuilt(homeData)
      ensures IsClickable(2) <==> IsPageBuilt(vadData)
    {
    }

    /** `setHomeData`, the home editor's `onChange`. */
    method SetHomeData(data: Layout)
      modifies this
      ensures homeData == data
      ensures vadData == old(vadData) && resultsData == old(resultsData) && active == old(active)
      ensures theme == old(theme) && zoom == old(zoom) && viewMode == old(viewMode) && openedUrls == old(openedUrls)
    {
      homeData := data;
    }

    /** `setVadData`, the inputs editor's `onChange`. */
    method SetVadData(data: Layout)
      modifies this
      ensures vadData == data
      ensures homeData == old(homeData) && resultsData == old(resultsData) && active == old(active)
      ensures theme == old(theme) && zoom == old(zoom) && viewMode == old(viewMode) && openedUrls == old(openedUrls)
    {
      vadData := data;
    }

    /** `setResultsData`, the results editor's `onChange`. */
    method SetResultsData(data: Layout)
      modifies this
      ensures resultsData == data
      ensures homeData == old(homeData) && vadData == old(vadData) && active == old(active)
      ensures theme == old(theme) && zoom == old(zoom) && viewMode == old(viewMode) && openedUrls == old(openedUrls)
    {
      resultsData := data;
    }

    /** `persistConfig`: write the current bundle to the slot. */
    method PersistConfig()
      modifies store
      ensures store.slot == Some(Api.ConfigJson(Bundle()))
      ensures Api.LoadFrom(store.slot, DemoProjectId) == Some(Bundle())
    {
      store.SaveBuildConfig(Bundle());
    }

    /** `handleSave`: persist whatever has been built so far. */
    method HandleSave()
      modifies store
      ensures store.slot == Some(Api.ConfigJson(Bundle()))
    {
      PersistConfig();
    }

    /** `handlePublish`: nothing at all unless every screen is built; otherwise
        persist the bundle and open the presentation view. */
    method HandlePublish()
      modifies this, store
      ensures !old(CanPublish()) ==> store.slot == old(store.slot) && openedUrls == old(openedUrls)
      ensures old(CanPublish()) ==>
        store.slot == Some(Api.ConfigJson(old(Bundle()))) && openedUrls == old(openedUrls) + [PresentUrl]
      ensures active == old(active) && homeData == old(homeData) && vadData == old(vadData)
      ensures resultsData == old(resultsData) && theme == old(theme) && zoom == old(zoom)
      ensures viewMode == old(viewMode)
    {
      if !CanPublish() {
        return;
      }
      PersistConfig();
      openedUrls := openedUrls + [PresentUrl];
    }

    /** `handleThemeChange`. */
    method HandleThemeChange(mode: ThemeMode)
      modifies this
      ensures theme == ThemeFor(mode)
      ensures active == old(active) && homeData == old(homeData) && vadData == old(vadData)
      ensures resultsData == old(resultsData) && zoom == old(zoom) && viewMode == old(viewMode)
      ensures openedUrls == old(openedUrls)
    {
      theme := ThemeFor(mode);
    }

    /** A click on the stepper button at `index`: it moves there only when
        that step is clickable. */
    method ClickStep(index: nat)
      requires index < |Steps|
      modifies this
      ensures old(IsClickable(index)) ==> active == Steps[index]
      ensures !old(IsClickable(index)) ==> active == old(active)
      ensures homeData == old(homeData) && vadData == old(vadData) && resultsData == old(resultsData)
      ensures theme == old(theme) && zoom == old(zoom) && viewMode == old(viewMode) && openedUrls == old(openedUrls)
    {
      if IsClickable(index) {
        active := Steps[index];
      }
    }

    /** The "−" zoom button. */
    method ZoomOutPressed()
      requires Valid()
      modifies this
      ensures Valid() && zoom == ZoomOut(old(zoom))
      ensures active == old(active) && homeData == old(homeData) && vadData == old(vadData)
      ensures resultsData == old(resultsData) && theme == old(theme) && viewMode == old(viewMode)
      ensures openedUrls == old(openedUrls)
    {
      zoom := ZoomOut(zoom);
    }

    /** The "+" zoom button. */
    method ZoomInPressed()
      requires Valid()
      modifies this
      ensures Valid() && zoom == ZoomIn(old(zoom))
      ensures active == old(active) && homeData == old(homeData) && vadData == old(vadData)
      ensures resultsData == old(resultsData) && theme == old(theme) && viewMode == old(viewMode)
      ensures openedUrls == old(openedUrls)
    {
      zoom := ZoomIn(zoom);
    }

    /** The view mode selector. */
    method SetViewMode(mode: ViewMode)
      modifies this
      ensures viewMode == mode
      ensures active == old(active) && homeData == old(homeData) && vadData == old(vadData)
      ensures resultsData == old(resultsData) && theme == old(theme) && zoom == old(zoom)
      ensures openedUrls == old(openedUrls)
    {
      viewMode := mode;
    }
  }
}
