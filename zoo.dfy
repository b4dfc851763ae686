/** The zoo gallery controller of statics/js/zoo.js: the filter and paging
    state, the grid of cards for the current page, the pagination controls,
    and the detail modal with its view modes. */
module Zoo {
  import opened Dom
  import opened JsText
  import opened Viewer
  import opened Paging

  // ---------------------------------------------------------------- material presets

  /** `[100, 100, 100, 255].map(x => x / 255)`. */
  const Gray: Color := Color(100, 100, 100, 255)

  /** What the flat-material load handlers of a card and of the modal manage
      to do: metallic 0.0 and roughness 1.0 on the first material. (In the
      modal's handler the next statement reads the undeclared `color` and
      throws a ReferenceError, which the handler's `catch` swallows, so its
      base colour and attribute settings never happen.) */
  const FlatMaterialEffects: seq<Effect> :=
    [OnFirstMaterial(SetMetallicFactor(0.0)), OnFirstMaterial(SetRoughnessFactor(1.0))]

  /** The five labels `updateModelView` recognises; the match is exact and
      case-sensitive. */
  const ViewModes: set<string> := {"textured", "Legacy", "Normal", "Gradient", "Neutral"}

  /** The gray preset on the first material shared by "textured", "Legacy"
      and "Neutral". */
  const GrayMaterial: seq<Effect> := [
    OnFirstMaterial(SetMetallicFactor(0.1)),
    OnFirstMaterial(SetRoughnessFactor(0.5)),
    OnFirstMaterial(SetBaseColorFactor(Gray))
  ]

  const GradientImage: string := "statics/env_maps/gradient.jpg"

  /** The effects of `updateModelView(mode)` on a loaded model, in the order
      the source performs them. */
  function ViewModeEffects(mode: string): (r: seq<Effect>)
    ensures r == [] <==> mode !in ViewModes
    ensures (exists i :: 0 <= i < |r| && r[i].OnEveryMaterial?) <==> mode == "Gradient"
  {
    if mode == "textured" then
      GrayMaterial + [SetAttribute("exposure", "0.5"), SetAttribute("environment-image", "legacy"),
                      SetAttribute("shadow-intensity", "0")]
    else if mode == "Legacy" then
      GrayMaterial + [SetAttribute("exposure", "1.0"), SetAttribute("environment-image", "legacy"),
                      SetAttribute("shadow-intensity", "0")]
    else if mode == "Normal" then
      [SetAttribute("environment-image", "neutral"), SetAttribute("shadow-intensity", "0.5"),
       SetAttribute("exposure", "0.8")]
    else if mode == "Gradient" then
      var r := [OnEveryMaterial(ClearBaseColorTexture), OnEveryMaterial(SetBaseColorFactor(White)),
                SetAttribute("environment-image", GradientImage), SetAttribute("shadow-intensity", "0.0"),
                SetAttribute("exposure", "1.5")];
      assert r[0].OnEveryMaterial?;
      r
    else if mode == "Neutral" then
      GrayMaterial + [SetAttribute("environment-image", "neutral"), SetAttribute("exposure", "1.0")]
    else
      []
  }

  /** "Gradient" clears every material's base-colour texture, makes every
      base colour opaque white, leaves metallic and roughness alone, and sets
      the gradient environment, no shadow and exposure 1.5. It never throws. */
  lemma GradientView(s: Scene)
    ensures var r := Perform(s, ViewModeEffects("Gradient"));
      && r.completed
      && (forall i :: 0 <= i < |s.materials| ==>
            r.scene.materials[i] == s.materials[i].(baseColor := White, hasBaseColorTexture := false))
      && r.scene.attributes == s.attributes["environment-image" := GradientImage]
                                           ["shadow-intensity" := "0.0"]["exposure" := "1.5"]
  {
    var e := ViewModeEffects("Gradient");
    var s1 := s.(materials := ApplyToEach(s.materials, ClearBaseColorTexture));
    var s2 := s1.(materials := ApplyToEach(s1.materials, SetBaseColorFactor(White)));
    var s3 := s2.(attributes := s2.attributes["environment-image" := GradientImage]);
    var s4 := s3.(attributes := s3.attributes["shadow-intensity" := "0.0"]);
    var s5 := s4.(attributes := s4.attributes["exposure" := "1.5"]);
    assert Perform(s, e) == Perform(s1, e[1..]);
    assert Perform(s1, e[1..]) == Perform(s2, e[2..]);
    assert Perform(s2, e[2..]) == Perform(s3, e[3..]);
    assert Perform(s3, e[3..]) == Perform(s4, e[4..]);
    assert Perform(s4, e[4..]) == Perform(s5, e[5..]);
    assert e[5..] == [];
  }

  /** "Normal" only changes attributes: neutral environment, shadow 0.5,
      exposure 0.8. */
  lemma NormalView(s: Scene)
    ensures var r := Perform(s, ViewModeEffects("Normal"));
      && r.completed
      && r.scene.materials == s.materials
      && r.scene.attributes == s.attributes["environment-image" := "neutral"]
                                           ["shadow-intensity" := "0.5"]["exposure" := "0.8"]
  {
    var e := ViewModeEffects("Normal");
    assert e[1..][1..][1..] == [];
  }

  /** The attributes each gray mode sets, in order. */
  function GrayModeAttributes(mode: string): seq<(string, string)>
    requires mode in {"textured", "Legacy", "Neutral"}
  {
    if mode == "textured" then [("exposure", "0.5"), ("environment-image", "legacy"), ("shadow-intensity", "0")]
    else if mode == "Legacy" then [("exposure", "1.0"), ("environment-image", "legacy"), ("shadow-intensity", "0")]
    else [("environment-image", "neutral"), ("exposure", "1.0")]
  }

  function SetAll(attributes: map<string, string>, settings: seq<(string, string)>): map<string, string>
    decreases |settings|
  {
    if settings == [] then attributes
    else SetAll(attributes[settings[0].0 := settings[0].1], settings[1..])
  }

  /** "textured", "Legacy" and "Neutral" give the first material metallic 0.1,
      roughness 0.5 and the gray base colour, leave the other materials
      alone, and set their attributes. On a model without materials the
      first call throws a TypeError (there is no try/catch here) and nothing
      changes. */
  lemma GrayModeView(s: Scene, mode: string)
    requires mode in {"textured", "Legacy", "Neutral"}
    ensures var r := Perform(s, ViewModeEffects(mode));
      if s.materials == [] then !r.completed && r.scene == s
      else
        && r.completed
        && r.scene.materials == s.materials[0 := s.materials[0].(metallic := 0.1, roughness := 0.5, baseColor := Gray)]
        && r.scene.attributes == SetAll(s.attributes, GrayModeAttributes(mode))
  {
    var e := ViewModeEffects(mode);
    if s.materials != [] {
      var m0 := s.materials[0];
      var s3 := s.(materials := s.materials[0 := m0.(metallic := 0.1, roughness := 0.5, baseColor := Gray)]);
      var tail := e[3..];
      assert Perform(s, e) == Perform(s3, tail) by {
        var s1 := s.(materials := s.materials[0 := m0.(metallic := 0.1)]);
        var s2 := s1.(materials := s1.materials[0 := m0.(metallic := 0.1, roughness := 0.5)]);
        assert s2.materials[0 := ApplyOp(s2.materials[0], e[2].op)] == s3.materials;
        assert Perform(s, e) == Perform(s1, e[1..]);
        assert Perform(s1, e[1..]) == Perform(s2, e[2..]);
        assert Perform(s2, e[2..]) == Perform(s3, e[3..]);
      }
      var attrs := GrayModeAttributes(mode);
      assert tail == seq(|attrs|, i requires 0 <= i < |attrs| => SetAttribute(attrs[i].0, attrs[i].1));
      AttributesOnly(s3, attrs);
    }
  }

  /** A run of attribute settings completes, leaves the materials alone and
      sets the attributes in order. */
  lemma {:induction false} AttributesOnly(s: Scene, settings: seq<(string, string)>)
    ensures var e := seq(|settings|, i requires 0 <= i < |settings| => SetAttribute(settings[i].0, settings[i].1));
      var r := Perform(s, e);
      r.completed && r.scene.materials == s.materials && r.scene.attributes == SetAll(s.attributes, settings)
    decreases |settings|
  {
    var e := seq(|settings|, i requires 0 <= i < |settings| => SetAttribute(settings[i].0, settings[i].1));
    if settings != [] {
      var s1 := s.(attributes := s.attributes[settings[0].0 := settings[0].1]);
      AttributesOnly(s1, settings[1..]);
      assert e[1..] == seq(|settings[1..]|, i requires 0 <= i < |settings[1..]| => SetAttribute(settings[1..][i].0, settings[1..][i].1));
    }
  }

  /** Any other mode, including a lower-case "legacy" or "gradient", changes
      nothing. */
  lemma UnknownModeView(s: Scene, mode: string)
    requires mode !in ViewModes
    ensures Perform(s, ViewModeEffects(mode)) == Performed(s, true)
  {
  }

  // ---------------------------------------------------------------- text

  /** `category.charAt(0).toUpperCase() + category.slice(1)`. */
  function Capitalize(s: string): (r: string)
    ensures |r| == |s|
    ensures r != [] ==> r[0] == ToUpperAscii(s[0]) && !('a' <= r[0] <= 'z') && r[1..] == s[1..]
  {
    if s == [] then "" else [ToUpperAscii(s[0])] + s[1..]
  }

  /** Capitalising an already capitalised category changes nothing. */
  lemma CapitalizeIdempotent(s: string)
    ensures Capitalize(Capitalize(s)) == Capitalize(s)
  {
    if s != [] {
      var r := Capitalize(s);
      assert r[0] == ToUpperAscii(s[0]);
      assert ToUpperAscii(r[0]) == r[0];
      assert r == [r[0]] + r[1..];
    }
  }

  /** `Page ${currentPage} of ${totalPages}`. */
  function PageLabel(page: nat, total: nat): string {
    "Page " + NatToString(page) + " of " + NatToString(total)
  }

  /** The number of decimal digits at the start of a string. */
  function LeadingDigits(s: string): nat {
    if s != [] && '0' <= s[0] <= '9' then 1 + LeadingDigits(s[1..]) else 0
  }

  lemma {:induction false} LeadingDigitsOf(digits: string, rest: string)
    requires IsDigits(digits) && rest != [] && rest[0] == ' '
    ensures LeadingDigits(digits + rest) == |digits|
  {
    if digits != [] {
      LeadingDigitsOf(digits[1..], rest);
      assert (digits + rest)[1..] == digits[1..] + rest;
    } else {
      assert digits + rest == rest;
    }
  }

  /** The label names its page and its total unambiguously. */
  lemma PageLabelInjective(p1: nat, t1: nat, p2: nat, t2: nat)
    requires PageLabel(p1, t1) == PageLabel(p2, t2)
    ensures p1 == p2 && t1 == t2
  {
    var a1, b1, a2, b2 := NatToString(p1), NatToString(t1), NatToString(p2), NatToString(t2);
    LabelTail(a1, b1);
    LabelTail(a2, b2);
    SplitAtSeparator(a1, b1, a2, b2);
    NatToStringInjective(p1, p2);
    NatToStringInjective(t1, t2);
  }

  lemma LabelTail(a: string, b: string)
    ensures ("Page " + a + " of " + b)[5..] == a + (" of " + b)
  {
  }

  /** Two digit strings followed by " of " and a rest split the same way. */
  lemma SplitAtSeparator(a1: string, b1: string, a2: string, b2: string)
    requires IsDigits(a1) && IsDigits(a2)
    requires a1 + (" of " + b1) == a2 + (" of " + b2)
    ensures a1 == a2 && b1 == b2
  {
    var x := a1 + (" of " + b1);
    LeadingDigitsOf(a1, " of " + b1);
    LeadingDigitsOf(a2, " of " + b2);
    assert a1 == x[..|a1|] == a2;
    assert b1 == x[|a1| + 4..] == b2;
  }

  // ---------------------------------------------------------------- the gallery

  /** One rendered card: the id of its `<model-viewer>`, the record it shows
      (its `src`, and the record its "View details" button opens), and whether
      a flat-material load handler was registered on its viewer. */
  datatype Card = Card(viewerId: string, model: ModelRecord, flatMaterial: bool)

  function CardFor(m: ModelRecord): Card {
    Card("model-" + m.id, m, !m.textured)
  }

  /** What a card's viewer does when its model loads. The handler's `catch`
      swallows the TypeError of a model without materials. */
  function CardLoadEffects(c: Card): seq<Effect> {
    if c.flatMaterial then FlatMaterialEffects else []
  }

  /** The flat-material calls, once the model has loaded: metallic 0.0 and
      roughness 1.0 on the first material, nothing else changed; a model
      without materials is left alone, its error swallowed. */
  lemma FlatMaterialStyle(s: Scene)
    ensures var r := Perform(s, FlatMaterialEffects).scene;
      && r.attributes == s.attributes
      && (s.materials == [] ==> r == s)
      && (s.materials != [] ==>
            r.materials == s.materials[0 := s.materials[0].(metallic := 0.0, roughness := 1.0)])
  {
    var e := FlatMaterialEffects;
    if s.materials != [] {
      var m0 := s.materials[0];
      var s1 := s.(materials := s.materials[0 := m0.(metallic := 0.0)]);
      var s2 := s1.(materials := s1.materials[0 := m0.(metallic := 0.0, roughness := 1.0)]);
      assert s1.materials[0 := ApplyOp(s1.materials[0], e[1].op)] == s2.materials;
      assert Perform(s, e) == Perform(s1, e[1..]);
      assert Perform(s1, e[1..]) == Perform(s2, e[2..]);
      assert e[2..] == [];
    }
  }

  /** A card of an untextured record, once loaded, has metallic 0.0 and
      roughness 1.0 on its first material and nothing else changed; a
      textured record's card is left as loaded. A model without materials is
      left alone, its error swallowed. */
  lemma CardLoadStyle(c: Card, s: Scene)
    ensures var r := Perform(s, CardLoadEffects(c)).scene;
      && r.attributes == s.attributes
      && (!c.flatMaterial || s.materials == [] ==> r == s)
      && (c.flatMaterial && s.materials != [] ==>
            r.materials == s.materials[0 := s.materials[0].(metallic := 0.0, roughness := 1.0)])
  {
    FlatMaterialStyle(s);
  }

  function CardsFor(page: seq<ModelRecord>): seq<Card> {
    seq(|page|, i requires 0 <= i < |page| => CardFor(page[i]))
  }

  /** The pagination controls for a page of a filtered list of `n` records:
      the label, and whether prev and next are flagged disabled. */
  datatype Controls = Controls(pageInfo: string, prevDisabled: bool, nextDisabled: bool)

  function ControlsFor(page: nat, n: nat): Controls {
    Controls(PageLabel(page, TotalPages(n)), page == 1, page == TotalPages(n))
  }

  /** Under the page invariant, prev is flagged disabled exactly when the prev
      handler would do nothing, and so is next as long as the filtered list is
      not empty. For an empty list the total is 0, the label reads
      "Page 1 of 0" and next is not flagged, although the next handler does
      nothing. */
  lemma ControlsMatchHandlers(page: nat, n: nat)
    requires PageInRange(page, n)
    ensures ControlsFor(page, n).prevDisabled <==> PrevPage(page) == page
    ensures n > 0 ==> (ControlsFor(page, n).nextDisabled <==> NextPage(page, n) == page)
    ensures n == 0 ==> ControlsFor(page, n) == Controls(PageLabel(1, 0), true, false) && NextPage(page, n) == page
  {
  }

  /** The zoo gallery: the module-level `currentPage` and `currentFilter`, the
      filter buttons' `active` flags, and what the page shows — the card grid,
      the page label and the two buttons' `disabled` flags. */
  class Gallery {
    /** The external `models` catalog. */
    const catalog: seq<ModelRecord>
    /** The `data-filter` of each filter button, in document order. */
    const filterValues: seq<string>
    /** Which filter buttons carry the `active` class. */
    const filterActive: array<bool>
    var currentPage: nat
    var currentFilter: string
    var grid: seq<Card>
    var controls: Controls

    /** `getFilteredModels()` for the current filter. */
    function Filtered(): seq<ModelRecord>
      reads this
    {
      FilteredModels(catalog, currentFilter)
    }

    ghost predicate Valid()
      reads this
    {
      filterActive.Length == |filterValues| && PageInRange(currentPage, |Filtered()|)
    }

    /** The grid and the pagination controls show the current state. */
    ghost predicate Shown()
      reads this
      requires Valid()
    {
      grid == CardsFor(PageSlice(Filtered(), currentPage)) &&
      controls == ControlsFor(currentPage, |Filtered()|)
    }

    /** Loading the page: filter "all", page 1, then `renderModels()` and
      `updatePagination()`. The filter buttons start as the markup has them. */
    constructor (catalog: seq<ModelRecord>, filterValues: seq<string>, initiallyActive: seq<bool>)
      requires |initiallyActive| == |filterValues|
      ensures Valid() && Shown()
      ensures this.catalog == catalog && this.filterValues == filterValues
      ensures currentPage == 1 && currentFilter == AllCategories
      ensures fresh(filterActive) && filterActive[..] == initiallyActive
    {
      this.catalog := catalog;
      this.filterValues := filterValues;
      filterActive := new bool[|initiallyActive|](i requires 0 <= i < |initiallyActive| => initiallyActive[i]);
      currentPage := 1;
      currentFilter := AllCategories;
      grid := [];
      controls := Controls("", false, false);
      new;
      RenderModels();
      UpdatePagination();
    }

    /** `renderModels`: clears the grid and appends one card per record of the
      current page, in order. */
    method RenderModels()
      requires Valid()
      modifies this`grid
      ensures grid == CardsFor(PageSlice(Filtered(), currentPage))
      ensures |grid| <= ModelsPerPage
      ensures |Filtered()| > 0 ==> |grid| > 0
    {
      var filtered := Filtered();
      var startIndex := (currentPage - 1) * ModelsPerPage;
      var endIndex := startIndex + ModelsPerPage;
      var paginated := filtered[Min(startIndex, |filtered|)..Min(endIndex, |filtered|)];
      assert paginated == PageSlice(filtered, currentPage);
      grid := [];
      for i := 0 to |paginated|
        invariant |grid| == i
        invariant forall j :: 0 <= j < i ==> grid[j] == CardFor(paginated[j])
      {
        grid := grid + [CardFor(paginated[i])];
      }
      TransitionsKeepPageInRange(currentPage, |filtered|, 0);
    }

    /** `updatePagination`. */
    method UpdatePagination()
      modifies this`controls
      ensures controls == ControlsFor(currentPage, |Filtered()|)
      ensures controls.prevDisabled <==> currentPage == 1
      ensures controls.nextDisabled <==> currentPage == TotalPages(|Filtered()|)
    {
      var totalPages := TotalPages(|Filtered()|);
      controls := Controls(PageLabel(currentPage, totalPages), currentPage == 1, currentPage == totalPages);
    }

    /** A click on filter button `k`: only that button is active, the filter
      becomes its `data-filter`, the page goes back to 1 whatever it was, and
      the grid and controls are redrawn. */
    method SelectFilter(k: nat)
      requires Valid() && k < |filterValues|
      modifies this, filterActive
      ensures Valid() && Shown()
      ensures forall i :: 0 <= i < filterActive.Length ==> filterActive[i] == (i == k)
      ensures currentFilter == filterValues[k] && currentPage == 1
    {
      ActivateOnly(filterActive, k);
      currentFilter := filterValues[k];
      currentPage := 1;
      TransitionsKeepPageInRange(old(currentPage), |old(Filtered())|, |Filtered()|);
      RenderModels();
      UpdatePagination();
    }

    /** A click on prev: one page back and a redraw when past page 1,
      otherwise nothing at all. */
    method ClickPrev()
      requires Valid() && Shown()
      modifies this
      ensures Valid() && Shown()
      ensures currentPage == PrevPage(old(currentPage)) && currentFilter == old(currentFilter)
      ensures old(currentPage) == 1 ==> grid == old(grid) && controls == old(controls)
    {
      TransitionsKeepPageInRange(currentPage, |Filtered()|, 0);
      if currentPage > 1 {
        currentPage := currentPage - 1;
        RenderModels();
        UpdatePagination();
      }
    }

    /** A click on next: one page on and a redraw when before the last page,
      otherwise nothing at all. */
    method ClickNext()
      requires Valid() && Shown()
      modifies this
      ensures Valid() && Shown()
      ensures currentPage == NextPage(old(currentPage), |Filtered()|) && currentFilter == old(currentFilter)
      ensures old(currentPage) >= TotalPages(|Filtered()|) ==> grid == old(grid) && controls == old(controls)
    {
      TransitionsKeepPageInRange(currentPage, |Filtered()|, 0);
      var totalPages := TotalPages(|Filtered()|);
      if currentPage < totalPages {
        currentPage := currentPage + 1;
        RenderModels();
        UpdatePagination();
      }
    }
  }

  // ---------------------------------------------------------------- the modal

  /** A load listener the modal registers on its viewer. Each call of
      `openModelModal` creates new closures, so listeners carry the serial
      number of their creation. */
  datatype ModalListener = FlatMaterial(serial: nat) | SnapshotMaterials(serial: nat)

  /** What a modal listener does when the model loads: the flat material for
      an untextured record; the snapshot of the original materials changes
      nothing a view mode reads. */
  function ModalListenerEffects(l: ModalListener): seq<Effect> {
    match l
    case FlatMaterial(_) => FlatMaterialEffects
    case SnapshotMaterials(_) => []
  }

  /** Once the modal's model loads, a flat-material listener leaves metallic
      0.0 and roughness 1.0 on the first material and throws before the
      colour and the attributes; a snapshot listener changes nothing. */
  lemma ModalListenerStyle(l: ModalListener, s: Scene)
    ensures var r := Perform(s, ModalListenerEffects(l)).scene;
      && r.attributes == s.attributes
      && (l.SnapshotMaterials? || s.materials == [] ==> r == s)
      && (l.FlatMaterial? && s.materials != [] ==>
            r.materials == s.materials[0 := s.materials[0].(metallic := 0.0, roughness := 1.0)])
  {
    FlatMaterialStyle(s);
  }

  /** The detail modal: whether it is shown, its category text, the shared
      detail viewer and the view-mode buttons' `active` flags. */
  class DetailModal {
    const viewer: ModelViewer<ModalListener>
    /** The `data-mode` of each view-mode button, in document order. */
    const viewModes: seq<string>
    const viewModeActive: array<bool>
    var visible: bool
    var categoryLabel: string
    var listenersCreated: nat

    ghost predicate Valid()
      reads this, viewer
    {
      viewModeActive.Length == |viewModes| &&
      forall i :: 0 <= i < |viewer.loadListeners| ==> viewer.loadListeners[i].serial < listenersCreated
    }

    constructor (viewModes: seq<string>)
      ensures Valid() && fresh(viewer) && fresh(viewModeActive)
      ensures this.viewModes == viewModes && !visible
      ensures viewer.loadListeners == [] && viewer.model == None
      ensures forall i :: 0 <= i < viewModeActive.Length ==> !viewModeActive[i]
    {
      viewer := new ModelViewer("", map[]);
      this.viewModes := viewModes;
      viewModeActive := new bool[|viewModes|](i => false);
      visible := false;
      categoryLabel := "";
      listenersCreated := 0;
    }

    /** `openModelModal(model)`: the capitalised category, the record's `src`
      on the viewer, a new flat-material listener for an untextured record,
      the modal shown, and a new snapshot listener. Listeners from earlier
      openings stay registered, so every opening adds one or two. */
    method Open(m: ModelRecord)
      requires Valid()
      modifies this, viewer
      ensures Valid() && visible
      ensures categoryLabel == Capitalize(m.category) && viewer.src == m.src
      ensures viewer.loadListeners == old(viewer.loadListeners)
        + (if m.textured then [] else [FlatMaterial(old(listenersCreated))])
        + [SnapshotMaterials(old(listenersCreated) + 1)]
      ensures |viewer.loadListeners| == |old(viewer.loadListeners)| + if m.textured then 1 else 2
      ensures viewer.model == old(viewer.model) && viewer.attributes == old(viewer.attributes)
    {
      categoryLabel := Capitalize(m.category);
      viewer.SetSrc(m.src);
      if !m.textured {
        var l := FlatMaterial(listenersCreated);
        assert l !in viewer.loadListeners;
        viewer.AddLoadListener(l);
      }
      visible := true;
      var snapshot := SnapshotMaterials(listenersCreated + 1);
      assert snapshot !in viewer.loadListeners;
      viewer.AddLoadListener(snapshot);
      listenersCreated := listenersCreated + 2;
    }

    /** The close control. */
    method Close()
      modifies this`visible
      ensures !visible
    {
      visible := false;
    }

    /** A click anywhere in the window closes the modal when it landed on the
      backdrop itself. */
    method ClickWindow(onBackdrop: bool)
      modifies this`visible
      ensures visible == (old(visible) && !onBackdrop)
    {
      if onBackdrop {
        visible := false;
      }
    }

    /** `updateModelView(mode)`: nothing without a loaded model; otherwise the
      mode's effects, which stop at an uncaught TypeError when a gray mode
      meets a model without materials. */
    method UpdateModelView(mode: string) returns (outcome: Outcome)
      modifies viewer`attributes, viewer`model
      ensures old(viewer.model).None? ==>
        outcome == Completed && viewer.model == old(viewer.model) && viewer.attributes == old(viewer.attributes)
      ensures old(viewer.model).Some? ==>
        var r := Perform(Scene(old(viewer.attributes), old(viewer.model).value), ViewModeEffects(mode));
        viewer.attributes == r.scene.attributes && viewer.model == Some(r.scene.materials) &&
        outcome == (if r.completed then Completed else TypeError)
    {
      if viewer.model.None? {
        return Completed;
      }
      var completed := viewer.Apply(ViewModeEffects(mode));
      outcome := if completed then Completed else TypeError;
    }

    /** A click on view-mode button `k`: only that button is active, then its
      `data-mode` is applied. */
    method SelectViewMode(k: nat) returns (outcome: Outcome)
      requires Valid() && k < |viewModes|
      modifies viewModeActive, viewer`attributes, viewer`model
      ensures Valid()
      ensures forall i :: 0 <= i < viewModeActive.Length ==> viewModeActive[i] == (i == k)
      ensures old(viewer.model).None? ==>
        outcome == Completed && viewer.model == old(viewer.model) && viewer.attributes == old(viewer.attributes)
      ensures old(viewer.model).Some? ==>
        var r := Perform(Scene(old(viewer.attributes), old(viewer.model).value), ViewModeEffects(viewModes[k]));
        viewer.attributes == r.scene.attributes && viewer.model == Some(r.scene.materials) &&
        outcome == (if r.completed then Completed else TypeError)
    {
      ActivateOnly(viewModeActive, k);
      outcome := UpdateModelView(viewModes[k]);
    }
  }
}
