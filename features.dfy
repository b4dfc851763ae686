/** The feature-tab controller of statics/js/features.js: tabs, content
    panels and case selectors that are switched on and off by clicks, and
    one shared viewer whose single load handler is swapped on every load. */
module Features {
  import opened Dom
  import opened Viewer

  /** `featureModels`: tab name, then case key, to asset path. */
  const FeatureModels: map<string, map<string, string>> := map[
    "detail" := map[
      "angle" := "statics/features/robot.glb",
      "gear" := "statics/features/tank.glb",
      "leaf" := "statics/features/monster.glb"
    ],
    "sharp" := map[
      "crystal" := "statics/meshes/Props/文生3D主体_材料与制造_第三轮_150.glb",
      "architecture" := "statics/meshes/Props/4d1750c2-db2b-427b-9d42-80fa742ab6f5.glb"
    ],
    "smooth" := map[
      "vase" := "models/ceramic_vase.glb",
      "character" := "models/character_face.glb"
    ]
  ]

  /** What `featureModels[tab][modelKey]` evaluates to: a path, `undefined`
      for an unknown key of a known tab, or a TypeError for an unknown tab
      (indexing `undefined`). */
  datatype Lookup = Path(path: string) | Undefined | LookupTypeError

  function LookupModel(tab: string, key: string): (r: Lookup)
    ensures r.LookupTypeError? <==> tab !in FeatureModels
    ensures r.Undefined? <==> tab in FeatureModels && key !in FeatureModels[tab]
    ensures r.Path? ==> tab in FeatureModels && key in FeatureModels[tab] && r.path == FeatureModels[tab][key]
    ensures r.Path? ==> r.path != ""
  {
    if tab !in FeatureModels then LookupTypeError
    else if key !in FeatureModels[tab] then Undefined
    else Path(FeatureModels[tab][key])
  }

  /** A load handler closure; each call of `loadFeatureModel` that finds a
      path creates a new one, told apart by its serial number. */
  datatype LoadHandler = LoadHandler(serial: nat)

  /** `[53, 54, 56, 255].map(x => x / 255)`. */
  const DarkGray: Color := Color(53, 54, 56, 255)

  /** What the load handler does: metallic 0.1, roughness 0.7 and the dark
      gray base colour on the first material. */
  const HandlerEffects: seq<Effect> := [
    OnFirstMaterial(SetMetallicFactor(0.1)),
    OnFirstMaterial(SetRoughnessFactor(0.7)),
    OnFirstMaterial(SetBaseColorFactor(DarkGray))
  ]

  /** The load handler styles the first material and nothing else; on a model
      without materials it throws, its `catch` swallows the error, and nothing
      changes. */
  lemma HandlerStyle(s: Scene)
    ensures var r := Perform(s, HandlerEffects).scene;
      && r.attributes == s.attributes
      && (s.materials == [] ==> r == s)
      && (s.materials != [] ==>
            r.materials == s.materials[0 := s.materials[0].(metallic := 0.1, roughness := 0.7, baseColor := DarkGray)])
  {
    var e := HandlerEffects;
    if s.materials != [] {
      var m0 := s.materials[0];
      var s1 := s.(materials := s.materials[0 := m0.(metallic := 0.1)]);
      var s2 := s1.(materials := s1.materials[0 := m0.(metallic := 0.1, roughness := 0.7)]);
      var s3 := s2.(materials := s2.materials[0 := m0.(metallic := 0.1, roughness := 0.7, baseColor := DarkGray)]);
      assert s2.materials[0 := ApplyOp(s2.materials[0], e[2].op)] == s3.materials;
      assert Perform(s, e) == Perform(s1, e[1..]);
      assert Perform(s1, e[1..]) == Perform(s2, e[2..]);
      assert Perform(s2, e[2..]) == Perform(s3, e[3..]);
      assert e[3..] == [];
    }
  }

  /** The scene after `count` load handlers have run, one after the other,
      each catching its own error. */
  function AfterHandlers(s: Scene, count: nat): Scene
    decreases count
  {
    if count == 0 then s else AfterHandlers(Perform(s, HandlerEffects).scene, count - 1)
  }

  /** The feature section: the tabs, the content panels and the case
      selectors with their class flags, the shared viewer, and the module-level
      `previousLoadHandler`. */
  class FeatureSection {
    /** The `data-tab` of each `.feature-tab`, in document order. */
    const tabNames: seq<string>
    /** Which tabs carry `active`. */
    const tabActive: array<bool>
    /** The `data-tab` of each `.tab-content` panel. */
    const panelTabs: seq<string>
    /** Which panels carry `hidden`, and which carry `active`. */
    const panelHidden: array<bool>
    const panelActive: array<bool>
    /** The `data-model` of each `.case-selector`. */
    const caseModels: seq<string>
    /** Which case selectors carry `active`. */
    const caseActive: array<bool>
    /** `#feature-viewer`. */
    const viewer: ModelViewer<LoadHandler>
    var previousLoadHandler: Option<LoadHandler>
    var handlersCreated: nat

    /** The flag arrays match their element lists and are distinct, and the
      viewer's load listeners are exactly the handler `previousLoadHandler`
      remembers: none, or that one. */
    ghost predicate Valid()
      reads this, viewer
    {
      && tabActive.Length == |tabNames|
      && panelHidden.Length == |panelTabs| && panelActive.Length == |panelTabs|
      && caseActive.Length == |caseModels|
      && tabActive != panelHidden && tabActive != panelActive && tabActive != caseActive
      && panelHidden != panelActive && panelHidden != caseActive && panelActive != caseActive
      && viewer.loadListeners == (if previousLoadHandler.Some? then [previousLoadHandler.value] else [])
      && (previousLoadHandler.Some? ==> previousLoadHandler.value.serial < handlersCreated)
    }

    /** The handler registered on the viewer never outnumbers one. */
    lemma AtMostOneHandler()
      requires Valid()
      ensures |viewer.loadListeners| <= 1
    {
    }

    /** The section as the script finds it, then `loadFeatureModel("detail", "gear")`. */
    constructor (tabNames: seq<string>, tabsActive: seq<bool>,
                 panelTabs: seq<string>, panelsHidden: seq<bool>, panelsActive: seq<bool>,
                 caseModels: seq<string>, casesActive: seq<bool>, initialSrc: string)
      requires |tabsActive| == |tabNames|
      requires |panelsHidden| == |panelTabs| && |panelsActive| == |panelTabs|
      requires |casesActive| == |caseModels|
      ensures Valid()
      ensures this.tabNames == tabNames && this.panelTabs == panelTabs && this.caseModels == caseModels
      ensures tabActive[..] == tabsActive && panelHidden[..] == panelsHidden && panelActive[..] == panelsActive
      ensures caseActive[..] == casesActive
      ensures viewer.src == "statics/features/tank.glb"
      ensures viewer.loadListeners == [LoadHandler(0)] && previousLoadHandler == Some(LoadHandler(0))
      ensures viewer.model == None && viewer.attributes == map[]
      ensures fresh(viewer) && fresh(tabActive) && fresh(panelHidden) && fresh(panelActive) && fresh(caseActive)
    {
      this.tabNames := tabNames;
      this.panelTabs := panelTabs;
      this.caseModels := caseModels;
      tabActive := new bool[|tabsActive|](i requires 0 <= i < |tabsActive| => tabsActive[i]);
      panelHidden := new bool[|panelsHidden|](i requires 0 <= i < |panelsHidden| => panelsHidden[i]);
      panelActive := new bool[|panelsActive|](i requires 0 <= i < |panelsActive| => panelsActive[i]);
      caseActive := new bool[|casesActive|](i requires 0 <= i < |casesActive| => casesActive[i]);
      viewer := new ModelViewer(initialSrc, map[]);
      previousLoadHandler := None;
      handlersCreated := 0;
      new;
      var _ := LoadFeatureModel("detail", "gear");
    }

    /** `loadFeatureModel(tab, modelKey)`. For a known case it sets the
      viewer's `src` and replaces the previous load handler by a new one, so
      exactly one handler stays registered. An unknown key changes nothing; an
      unknown tab throws before anything changes. */
    method LoadFeatureModel(tab: string, key: string) returns (outcome: Outcome)
      requires Valid()
      modifies this, viewer
      ensures Valid()
      ensures outcome == TypeError <==> tab !in FeatureModels
      ensures LookupModel(tab, key).Path? ==>
        && viewer.src == FeatureModels[tab][key]
        && viewer.loadListeners == [LoadHandler(old(handlersCreated))]
        && previousLoadHandler == Some(LoadHandler(old(handlersCreated)))
      ensures !LookupModel(tab, key).Path? ==>
        && viewer.src == old(viewer.src)
        && viewer.loadListeners == old(viewer.loadListeners)
        && previousLoadHandler == old(previousLoadHandler)
      ensures viewer.model == old(viewer.model) && viewer.attributes == old(viewer.attributes)
    {
      var modelPath := LookupModel(tab, key);
      if modelPath.LookupTypeError? {
        return TypeError;
      }
      if modelPath.Path? && modelPath.path != "" {
        viewer.SetSrc(modelPath.path);
        if previousLoadHandler.Some? {
          viewer.RemoveLoadListener(previousLoadHandler.value);
          assert viewer.loadListeners == [];
          previousLoadHandler := None;
        }
        var loadHandler := LoadHandler(handlersCreated);
        handlersCreated := handlersCreated + 1;
        previousLoadHandler := Some(loadHandler);
        viewer.AddLoadListener(loadHandler);
      }
      outcome := Completed;
    }

    /** Sets `hidden` on every panel of another tab and `active` on every
      panel of this one, clearing the other flag. */
    method ShowPanelsOf(tabName: string)
      requires Valid()
      modifies panelHidden, panelActive
      ensures forall i :: 0 <= i < panelHidden.Length ==> panelHidden[i] == (panelTabs[i] != tabName)
      ensures forall i :: 0 <= i < panelActive.Length ==> panelActive[i] == (panelTabs[i] == tabName)
    {
      for i := 0 to |panelTabs|
        invariant forall j :: 0 <= j < i ==> panelHidden[j] == (panelTabs[j] != tabName)
        invariant forall j :: 0 <= j < i ==> panelActive[j] == (panelTabs[j] == tabName)
      {
        panelHidden[i] := panelTabs[i] != tabName;
        panelActive[i] := panelTabs[i] == tabName;
      }
    }

    /** A click on tab `k`, whose first case selector (if it has one) is
      `firstCase`: exactly that tab is active, exactly its panels are shown,
      and its first case is loaded and made the only active case. When the
      tab is unknown to `featureModels` the load throws and the case flags
      stay as they were. */
    method ClickTab(k: nat, firstCase: Option<nat>) returns (outcome: Outcome)
      requires Valid() && k < |tabNames|
      requires firstCase.Some? ==> firstCase.value < |caseModels|
      modifies this, viewer, tabActive, panelHidden, panelActive, caseActive
      ensures Valid()
      ensures forall i :: 0 <= i < tabActive.Length ==> tabActive[i] == (i == k)
      ensures forall i :: 0 <= i < panelHidden.Length ==>
        panelHidden[i] == (panelTabs[i] != tabNames[k]) && panelActive[i] == (panelTabs[i] == tabNames[k])
      ensures firstCase.None? ==>
        && outcome == Completed && caseActive[..] == old(caseActive[..])
        && viewer.src == old(viewer.src) && viewer.loadListeners == old(viewer.loadListeners)
      ensures firstCase.Some? ==>
        var r := LookupModel(tabNames[k], caseModels[firstCase.value]);
        && (outcome == TypeError <==> r.LookupTypeError?)
        && (r.LookupTypeError? ==> caseActive[..] == old(caseActive[..]))
        && (!r.LookupTypeError? ==> forall i :: 0 <= i < caseActive.Length ==> caseActive[i] == (i == firstCase.value))
        && (r.Path? ==> viewer.src == r.path && viewer.loadListeners == [LoadHandler(old(handlersCreated))])
        && (!r.Path? ==> viewer.src == old(viewer.src) && viewer.loadListeners == old(viewer.loadListeners))
      ensures viewer.model == old(viewer.model) && viewer.attributes == old(viewer.attributes)
    {
      ActivateOnly(tabActive, k);
      var tabName := tabNames[k];
      ShowPanelsOf(tabName);
      outcome := Completed;
      if firstCase.Some? {
        outcome := LoadFeatureModel(tabName, caseModels[firstCase.value]);
        if outcome == TypeError {
          return;
        }
        ActivateOnly(caseActive, firstCase.value);
      }
    }

    /** A click on case selector `k`: exactly that case is active, then the
      case is loaded for the first active tab. With no active tab,
      `querySelector` yields `null` and reading its `dataset` throws. */
    method ClickCase(k: nat) returns (outcome: Outcome)
      requires Valid() && k < |caseModels|
      modifies this, viewer, caseActive
      ensures Valid()
      ensures forall i :: 0 <= i < caseActive.Length ==> caseActive[i] == (i == k)
      ensures var active := FirstFlagged(tabActive[..]);
        && (active.None? ==> outcome == TypeError && viewer.src == old(viewer.src)
                             && viewer.loadListeners == old(viewer.loadListeners))
        && (active.Some? ==>
              var r := LookupModel(tabNames[active.value], caseModels[k]);
              && (outcome == TypeError <==> r.LookupTypeError?)
              && (r.Path? ==> viewer.src == r.path && viewer.loadListeners == [LoadHandler(old(handlersCreated))])
              && (!r.Path? ==> viewer.src == old(viewer.src) && viewer.loadListeners == old(viewer.loadListeners)))
      ensures viewer.model == old(viewer.model) && viewer.attributes == old(viewer.attributes)
    {
      ActivateOnly(caseActive, k);
      var activeTab := FirstFlagged(tabActive[..]);
      if activeTab.None? {
        return TypeError;
      }
      outcome := LoadFeatureModel(tabNames[activeTab.value], caseModels[k]);
    }

    /** The viewer reports that its model has loaded: every registered load
      handler runs, each catching its own error. Since at most one handler
      is registered, the material style is applied at most once. */
    method FinishLoad(materials: seq<Material>)
      requires Valid()
      modifies viewer`model, viewer`attributes
      ensures Valid()
      ensures var r := AfterHandlers(Scene(old(viewer.attributes), materials), |viewer.loadListeners|);
        viewer.model == Some(r.materials) && viewer.attributes == r.attributes
      ensures var once := Perform(Scene(old(viewer.attributes), materials), HandlerEffects).scene;
        var r := if previousLoadHandler.Some? then once else Scene(old(viewer.attributes), materials);
        viewer.model == Some(r.materials) && viewer.attributes == r.attributes
    {
      viewer.FinishLoading(materials);
      var handlers := viewer.loadListeners;
      for i := 0 to |handlers|
        invariant viewer.loadListeners == handlers
        invariant viewer.model.Some?
        invariant Scene(viewer.attributes, viewer.model.value) ==
                  AfterHandlers(Scene(old(viewer.attributes), materials), i)
      {
        AfterHandlersStep(Scene(old(viewer.attributes), materials), i);
        var _ := viewer.Apply(HandlerEffects);
      }
    }
  }

  lemma {:induction false} AfterHandlersStep(s: Scene, n: nat)
    ensures AfterHandlers(s, n + 1) == Perform(AfterHandlers(s, n), HandlerEffects).scene
    decreases n
  {
    if n > 0 {
      AfterHandlersStep(Perform(s, HandlerEffects).scene, n - 1);
    }
  }

  /** Selecting one case and then another, both known, before any load
      event: a single handler is registered afterwards, the newer one, and the
      viewer shows the second case's asset. */
  method TwoCasesInARow(section: FeatureSection, first: nat, second: nat)
    requires section.Valid() && first < |section.caseModels| && second < |section.caseModels|
    requires section.tabActive.Length > 0 && section.tabActive[0]
    requires section.tabNames[0] in FeatureModels
    requires section.caseModels[first] in FeatureModels[section.tabNames[0]]
    requires section.caseModels[second] in FeatureModels[section.tabNames[0]]
    modifies section, section.viewer, section.caseActive
    ensures section.Valid()
    ensures |section.viewer.loadListeners| == 1
    ensures section.viewer.src == FeatureModels[section.tabNames[0]][section.caseModels[second]]
  {
    assert FirstFlagged(section.tabActive[..]) == Some(0);
    var _ := section.ClickCase(first);
    var _ := section.ClickCase(second);
  }

  /** A click on tab `k` and then on case selector `j`: whatever the tab's
      own first case did, the clicked tab is the only active one, so the case
      is looked up under that tab; a known case ends with its asset in the
      viewer and a single handler registered. */
  method TabThenCase(section: FeatureSection, k: nat, firstCase: Option<nat>, j: nat) returns (outcome: Outcome)
    requires section.Valid() && k < |section.tabNames| && j < |section.caseModels|
    requires firstCase.Some? ==> firstCase.value < |section.caseModels|
    modifies section, section.viewer, section.tabActive, section.panelHidden, section.panelActive, section.caseActive
    ensures section.Valid()
    ensures forall i :: 0 <= i < section.caseActive.Length ==> section.caseActive[i] == (i == j)
    ensures var r := LookupModel(section.tabNames[k], section.caseModels[j]);
      && (outcome == TypeError <==> r.LookupTypeError?)
      && (r.Path? ==> section.viewer.src == r.path && |section.viewer.loadListeners| == 1)
  {
    var _ := section.ClickTab(k, firstCase);
    FirstOfExactlyOne(section.tabActive[..], k);
    outcome := section.ClickCase(j);
  }

  /** The script from the start: the section loads the "detail"/"gear" case,
      then the visitor clicks the "sharp" tab, whose first case is "crystal".
      The crystal's asset is in the viewer and one handler is registered, so
      the model's arrival applies the style once. */
  method OpenThenClickTab(materials: seq<Material>) returns (section: FeatureSection)
    ensures section.Valid()
    ensures section.viewer.src == FeatureModels["sharp"]["crystal"]
    ensures |section.viewer.loadListeners| == 1
    ensures section.tabActive[..] == [false, true] && section.caseActive[..] == [false, false, true]
    ensures var once := Perform(Scene(map[], materials), HandlerEffects).scene;
      section.viewer.model == Some(once.materials) && section.viewer.attributes == once.attributes
  {
    section := new FeatureSection(["detail", "sharp"], [true, false],
                                  ["detail", "sharp"], [false, true], [true, false],
                                  ["gear", "angle", "crystal"], [true, false, false], "");
    var outcome := section.ClickTab(1, Some(2));
    assert section.tabActive[..] == [false, true];
    assert section.caseActive[..] == [false, false, true];
    section.FinishLoad(materials);
  }
}
