/** The few behaviours of the browser DOM that both controllers rely on:
    how an event handler ends, class flags over a list of elements, and
    `querySelector` over such a list. */
module Dom {

  datatype Option<T> = None | Some(value: T)

  /** How an event handler ends: normally, or with an uncaught TypeError
      (reading a property of `undefined` or `null`). */
  datatype Outcome = Completed | TypeError

  /** Clears a class on every element of a list, then sets it on element `k`:
      a `forEach(e => e.classList.remove(c))` followed by
      `this.classList.add(c)` on the clicked element. Afterwards exactly
      element `k` carries the class. */
  method ActivateOnly(flags: array<bool>, k: nat)
    requires k < flags.Length
    modifies flags
    ensures forall i :: 0 <= i < flags.Length ==> flags[i] == (i == k)
  {
    for i := 0 to flags.Length
      invariant forall j :: 0 <= j < i ==> !flags[j]
    {
      flags[i] := false;
    }
    flags[k] := true;
  }

  /** `querySelector` over a list of elements in document order: the index of
      the first element whose flag is set, if any. */
  function FirstFlagged(flags: seq<bool>): (r: Option<nat>)
    ensures r.Some? ==> r.value < |flags| && flags[r.value]
    ensures r.Some? ==> forall j :: 0 <= j < r.value ==> !flags[j]
    ensures r.None? ==> forall j :: 0 <= j < |flags| ==> !flags[j]
  {
    if flags == [] then None
    else if flags[0] then Some(0)
    else match FirstFlagged(flags[1..])
      case None => None
      case Some(i) => Some(i + 1)
  }

  /** A set of flags in which exactly one element is flagged has that element
      as its first flagged one. */
  lemma FirstOfExactlyOne(flags: seq<bool>, k: nat)
    requires k < |flags|
    requires forall i :: 0 <= i < |flags| ==> flags[i] == (i == k)
    ensures FirstFlagged(flags) == Some(k)
  {
    assert flags[k];
  }
}
