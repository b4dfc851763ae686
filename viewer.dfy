/** The `<model-viewer>` web component, reduced to what the controllers use
    of it: a `src` attribute, display attributes (exposure, environment image,
    shadow intensity), the materials of the loaded model, and the element's
    list of "load" listeners. The rendering engine itself is not modelled;
    its material calls become recorded effects on plain values. */
module Viewer {
  import opened Dom

  /** A colour factor `[r, g, b, a].map(x => x / 255)`: the four channels are
      kept as the integers over 255, so no floating point is involved. */
  datatype Color = Color(r: nat, g: nat, b: nat, a: nat)

  /** `[1, 1, 1, 1]`, opaque white. */
  const White: Color := Color(255, 255, 255, 255)

  /** The part of a material's `pbrMetallicRoughness` the controllers touch. */
  datatype Material = Material(metallic: real, roughness: real, baseColor: Color, hasBaseColorTexture: bool)

  /** One call on a material's `pbrMetallicRoughness`. */
  datatype MaterialOp =
    | SetMetallicFactor(metallic: real)
    | SetRoughnessFactor(roughness: real)
    | SetBaseColorFactor(color: Color)
    | ClearBaseColorTexture

  /** One effect on the viewer: an operation on the first material (reached
      through `const [material] = viewer.model.materials`), an operation on
      every material (`materials.forEach`), or `setAttribute(name, value)`. */
  datatype Effect =
    | OnFirstMaterial(op: MaterialOp)
    | OnEveryMaterial(op: MaterialOp)
    | SetAttribute(name: string, value: string)

  function ApplyOp(m: Material, op: MaterialOp): Material {
    match op
    case SetMetallicFactor(x) => m.(metallic := x)
    case SetRoughnessFactor(x) => m.(roughness := x)
    case SetBaseColorFactor(c) => m.(baseColor := c)
    case ClearBaseColorTexture => m.(hasBaseColorTexture := false)
  }

  function ApplyToEach(ms: seq<Material>, op: MaterialOp): seq<Material> {
    seq(|ms|, i requires 0 <= i < |ms| => ApplyOp(ms[i], op))
  }

  /** What a loaded viewer shows: the element's attributes and the model's materials. */
  datatype Scene = Scene(attributes: map<string, string>, materials: seq<Material>)

  /** The scene after running effects, and whether they all ran. */
  datatype Performed = Performed(scene: Scene, completed: bool)

  predicate TouchesFirstMaterial(effects: seq<Effect>) {
    exists i :: 0 <= i < |effects| && effects[i].OnFirstMaterial?
  }

  /** Runs effects in order. With no materials, `[material]` destructures to
      `undefined` and the first operation on it throws a TypeError: the
      remaining effects do not run, the ones already run stay. */
  function Perform(s: Scene, effects: seq<Effect>): (r: Performed)
    ensures |r.scene.materials| == |s.materials|
    ensures !r.completed <==> s.materials == [] && TouchesFirstMaterial(effects)
    decreases |effects|
  {
    if effects == [] then Performed(s, true)
    else
      var first, more := effects[0], effects[1..];
      assert effects == [first] + more;
      match first
      case OnFirstMaterial(op) =>
        if s.materials == [] then Performed(s, false)
        else Perform(s.(materials := s.materials[0 := ApplyOp(s.materials[0], op)]), more)
      case OnEveryMaterial(op) =>
        ShiftTouches(first, more);
        Perform(s.(materials := ApplyToEach(s.materials, op)), more)
      case SetAttribute(name, value) =>
        ShiftTouches(first, more);
        Perform(s.(attributes := s.attributes[name := value]), more)
  }

  lemma ShiftTouches(first: Effect, more: seq<Effect>)
    requires !first.OnFirstMaterial?
    ensures TouchesFirstMaterial([first] + more) <==> TouchesFirstMaterial(more)
  {
    var all := [first] + more;
    if TouchesFirstMaterial(all) {
      var i :| 0 <= i < |all| && all[i].OnFirstMaterial?;
      assert more[i - 1].OnFirstMaterial?;
    }
    if TouchesFirstMaterial(more) {
      var i :| 0 <= i < |more| && more[i].OnFirstMaterial?;
      assert all[i + 1].OnFirstMaterial?;
    }
  }

  /** Removes every occurrence of a listener. */
  function Without<L(==,!new)>(s: seq<L>, x: L): (r: seq<L>)
    ensures x !in r
    ensures forall y :: y != x ==> (y in r <==> y in s)
    ensures |r| <= |s|
    ensures x !in s ==> r == s
  {
    if s == [] then []
    else (if s[0] == x then [] else [s[0]]) + Without(s[1..], x)
  }

  /** Removing a listener works piece by piece: the listeners before and
      after any split point keep their order and their count. */
  lemma {:induction false} WithoutConcat<L(!new)>(a: seq<L>, b: seq<L>, x: L)
    ensures Without(a + b, x) == Without(a, x) + Without(b, x)
  {
    if a == [] {
      assert a + b == b;
    } else {
      assert (a + b)[0] == a[0];
      assert (a + b)[1..] == a[1..] + b;
      WithoutConcat(a[1..], b, x);
    }
  }

  /** A `<model-viewer>` element whose "load" listeners are values of type `L`. */
  class ModelViewer<L(==,!new)> {
    var src: string
    var attributes: map<string, string>
    /** The loaded model's materials; `None` while no model has loaded. */
    var model: Option<seq<Material>>
    var loadListeners: seq<L>

    constructor (src: string, attributes: map<string, string>)
      ensures this.src == src && this.attributes == attributes
      ensures model == None && loadListeners == []
    {
      this.src := src;
      this.attributes := attributes;
      model := None;
      loadListeners := [];
    }

    /** `setAttribute("src", path)`. */
    method SetSrc(path: string)
      modifies this`src
      ensures src == path
    {
      src := path;
    }

    /** `addEventListener("load", l)`: a listener already registered is not added twice. */
    method AddLoadListener(l: L)
      modifies this`loadListeners
      ensures loadListeners == if l in old(loadListeners) then old(loadListeners) else old(loadListeners) + [l]
    {
      if l !in loadListeners {
        loadListeners := loadListeners + [l];
      }
    }

    /** `removeEventListener("load", l)`. */
    method RemoveLoadListener(l: L)
      modifies this`loadListeners
      ensures loadListeners == Without(old(loadListeners), l)
    {
      loadListeners := Without(loadListeners, l);
    }

    /** The rendering engine reports that a model with these materials has loaded. */
    method FinishLoading(materials: seq<Material>)
      modifies this`model
      ensures model == Some(materials)
    {
      model := Some(materials);
    }

    /** Runs effects on the loaded model and this element's attributes. */
    method Apply(effects: seq<Effect>) returns (completed: bool)
      requires model.Some?
      modifies this`attributes, this`model
      ensures var r := Perform(Scene(old(attributes), old(model).value), effects);
        attributes == r.scene.attributes && model == Some(r.scene.materials) && completed == r.completed
    {
      var r := Perform(Scene(attributes, model.value), effects);
      attributes, model, completed := r.scene.attributes, Some(r.scene.materials), r.completed;
    }
  }
}
