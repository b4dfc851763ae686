/** The pure part of the zoo gallery (statics/js/zoo.js): the catalog
    record, the category filter of `getFilteredModels`, and the page
    arithmetic of `renderModels` and `updatePagination`. */
module Paging {

  /** `modelsPerPage`. */
  const ModelsPerPage: nat := 8

  /** The filter value that means "no filter". */
  const AllCategories: string := "all"

  /** A record of the externally supplied `models` catalog, reduced to the
      fields the controller's logic reads. */
  datatype ModelRecord = ModelRecord(id: string, category: string, src: string, textured: bool)

  // ---------------------------------------------------------------- filter

  /** `models.filter(model => model.category === category)`. */
  function InCategory(catalog: seq<ModelRecord>, category: string): (r: seq<ModelRecord>)
    ensures |r| <= |catalog|
    ensures forall k :: 0 <= k < |r| ==> r[k].category == category
  {
    if catalog == [] then []
    else (if catalog[0].category == category then [catalog[0]] else []) + InCategory(catalog[1..], category)
  }

  /** `getFilteredModels`: the whole catalog for "all", otherwise the records
      of the chosen category. */
  function FilteredModels(catalog: seq<ModelRecord>, filter: string): (r: seq<ModelRecord>)
    ensures filter == AllCategories ==> r == catalog
    ensures filter != AllCategories ==> forall k :: 0 <= k < |r| ==> r[k].category == filter
    ensures |r| <= |catalog|
  {
    if filter == AllCategories then catalog else InCategory(catalog, filter)
  }

  /** `idx` lists, in increasing order, exactly the catalog positions whose
      record has the category, and `r` holds the records at those positions. */
  ghost predicate IsSelection(r: seq<ModelRecord>, catalog: seq<ModelRecord>, category: string, idx: seq<nat>) {
    && |idx| == |r|
    && (forall k :: 0 <= k < |idx| ==> idx[k] < |catalog| && r[k] == catalog[idx[k]])
    && (forall k, l :: 0 <= k < l < |idx| ==> idx[k] < idx[l])
    && (forall i :: 0 <= i < |catalog| ==> (catalog[i].category == category <==> i in idx))
  }

  /** `r` consists of exactly the catalog's records of the category, each
      once, in catalog order. */
  ghost predicate SelectsInOrder(r: seq<ModelRecord>, catalog: seq<ModelRecord>, category: string) {
    exists idx :: IsSelection(r, catalog, category, idx)
  }

  /** Every position of `s`, one higher. */
  function Shifted(s: seq<nat>): (r: seq<nat>)
    ensures |r| == |s|
    ensures forall k :: 0 <= k < |s| ==> r[k] == s[k] + 1
  {
    seq(|s|, k requires 0 <= k < |s| => s[k] + 1)
  }

  /** The catalog positions whose record has the category, in increasing order. */
  ghost function MatchingPositions(catalog: seq<ModelRecord>, category: string): seq<nat> {
    if catalog == [] then []
    else (if catalog[0].category == category then [0] else []) + Shifted(MatchingPositions(catalog[1..], category))
  }

  lemma {:induction false} InCategoryIsSelection(catalog: seq<ModelRecord>, category: string)
    ensures IsSelection(InCategory(catalog, category), catalog, category, MatchingPositions(catalog, category))
  {
    if catalog != [] {
      InCategoryIsSelection(catalog[1..], category);
      SelectionStep(catalog, category, InCategory(catalog[1..], category), MatchingPositions(catalog[1..], category));
    }
  }

  /** A selection from the catalog's tail extends to one from the whole
      catalog by deciding on its first record. */
  lemma SelectionStep(catalog: seq<ModelRecord>, category: string, r': seq<ModelRecord>, idx': seq<nat>)
    requires catalog != []
    requires IsSelection(r', catalog[1..], category, idx')
    ensures var matches := catalog[0].category == category;
      IsSelection((if matches then [catalog[0]] else []) + r', catalog, category,
                  (if matches then [0] else []) + Shifted(idx'))
  {
    var matches := catalog[0].category == category;
    var head := if matches then [catalog[0]] else [];
    var headIdx: seq<nat> := if matches then [0] else [];
    StepPicksRecords(catalog, r', idx', head, headIdx);
    StepKeepsOrder(idx', headIdx);
    StepFindsAll(catalog, category, idx', headIdx);
  }

  lemma StepPicksRecords(catalog: seq<ModelRecord>, r': seq<ModelRecord>, idx': seq<nat>,
                         head: seq<ModelRecord>, headIdx: seq<nat>)
    requires catalog != []
    requires |idx'| == |r'|
    requires forall k :: 0 <= k < |idx'| ==> idx'[k] < |catalog[1..]| && r'[k] == catalog[1..][idx'[k]]
    requires (head == [] && headIdx == []) || (head == [catalog[0]] && headIdx == [0])
    ensures var r, idx := head + r', headIdx + Shifted(idx');
      |idx| == |r| && forall k :: 0 <= k < |idx| ==> idx[k] < |catalog| && r[k] == catalog[idx[k]]
  {
    var sh := Shifted(idx');
    var r, idx := head + r', headIdx + sh;
    forall k | 0 <= k < |idx|
      ensures idx[k] < |catalog| && r[k] == catalog[idx[k]]
    {
      if k >= |headIdx| {
        var k' := k - |headIdx|;
        assert idx[k] == sh[k'] == idx'[k'] + 1;
        assert r[k] == r'[k'];
      }
    }
  }

  lemma StepKeepsOrder(idx': seq<nat>, headIdx: seq<nat>)
    requires forall k, l :: 0 <= k < l < |idx'| ==> idx'[k] < idx'[l]
    requires headIdx == [] || headIdx == [0]
    ensures var idx := headIdx + Shifted(idx');
      forall k, l :: 0 <= k < l < |idx| ==> idx[k] < idx[l]
  {
    var sh := Shifted(idx');
    var idx := headIdx + sh;
    forall k, l | 0 <= k < l < |idx|
      ensures idx[k] < idx[l]
    {
      if k >= |headIdx| {
        assert idx[k] == sh[k - |headIdx|] && idx[l] == sh[l - |headIdx|];
      } else {
        assert idx[l] == sh[l - |headIdx|];
      }
    }
  }

  lemma StepFindsAll(catalog: seq<ModelRecord>, category: string, idx': seq<nat>, headIdx: seq<nat>)
    requires catalog != []
    requires forall i :: 0 <= i < |catalog[1..]| ==> (catalog[1..][i].category == category <==> i in idx')
    requires headIdx == if catalog[0].category == category then [0] else []
    ensures var idx := headIdx + Shifted(idx');
      forall i :: 0 <= i < |catalog| ==> (catalog[i].category == category <==> i in idx)
  {
    var rest := catalog[1..];
    var sh := Shifted(idx');
    var idx := headIdx + sh;
    forall i | 0 <= i < |catalog|
      ensures catalog[i].category == category <==> i in idx
    {
      if i == 0 {
        assert 0 !in sh;
      } else {
        assert catalog[i] == rest[i - 1];
        if i in sh {
          var k :| 0 <= k < |sh| && sh[k] == i;
          assert idx'[k] == i - 1;
        }
        if rest[i - 1].category == category {
          var k :| 0 <= k < |idx'| && idx'[k] == i - 1;
          assert sh[k] == i;
        }
      }
    }
  }

  /** getFilteredModels returns exactly the records whose category equals the
      filter, each once and in catalog order. */
  lemma FilteredSelectsInOrder(catalog: seq<ModelRecord>, filter: string)
    requires filter != AllCategories
    ensures SelectsInOrder(FilteredModels(catalog, filter), catalog, filter)
  {
    InCategoryIsSelection(catalog, filter);
  }

  // ---------------------------------------------------------------- pages

  function Min(a: int, b: int): int { if a <= b then a else b }

  function Max(a: int, b: int): int { if a <= b then b else a }

  /** `Math.ceil(n / modelsPerPage)`: the least number of pages that hold `n`
      records. Zero records make zero pages. */
  function TotalPages(n: nat): (t: nat)
    ensures n <= t * ModelsPerPage
    ensures t > 0 ==> (t - 1) * ModelsPerPage < n
    ensures t == 0 <==> n == 0
  {
    (n + ModelsPerPage - 1) / ModelsPerPage
  }

  /** The records `renderModels` shows on a 1-based page:
      `filtered.slice((page - 1) * modelsPerPage, page * modelsPerPage)`,
      where `slice` stops at the end of the list. */
  function PageSlice<T>(filtered: seq<T>, page: nat): (r: seq<T>)
    requires page >= 1
    ensures |r| <= ModelsPerPage
    ensures (page - 1) * ModelsPerPage >= |filtered| ==> r == []
    ensures (page - 1) * ModelsPerPage < |filtered| ==>
      |r| == Min(ModelsPerPage, |filtered| - (page - 1) * ModelsPerPage)
    ensures forall k :: 0 <= k < |r| ==> r[k] == filtered[(page - 1) * ModelsPerPage + k]
  {
    var start := (page - 1) * ModelsPerPage;
    var end := start + ModelsPerPage;
    filtered[Min(start, |filtered|)..Min(end, |filtered|)]
  }

  /** A page in the range `1 .. TotalPages(n)` is never empty. */
  lemma PageInRangeNonEmpty<T>(filtered: seq<T>, page: nat)
    requires 1 <= page <= TotalPages(|filtered|)
    ensures 0 < |PageSlice(filtered, page)|
  {
  }

  /** The slices for pages 1 to `TotalPages(n)`, in order. */
  function AllPages<T>(filtered: seq<T>): seq<seq<T>> {
    seq(TotalPages(|filtered|), i requires 0 <= i < TotalPages(|filtered|) => PageSlice(filtered, i + 1))
  }

  function Flatten<T>(pages: seq<seq<T>>): seq<T> {
    if pages == [] then [] else pages[0] + Flatten(pages[1..])
  }

  lemma {:induction false} PagesFromReassemble<T>(filtered: seq<T>, i: nat)
    requires i <= TotalPages(|filtered|)
    ensures Flatten(AllPages(filtered)[i..]) == filtered[Min(i * ModelsPerPage, |filtered|)..]
    decreases TotalPages(|filtered|) - i
  {
    var pages := AllPages(filtered);
    var n := |filtered|;
    if i == TotalPages(n) {
      assert pages[i..] == [];
      assert n <= i * ModelsPerPage;
    } else {
      PagesFromReassemble(filtered, i + 1);
      assert pages[i..][1..] == pages[i + 1..];
      var start, end := i * ModelsPerPage, Min((i + 1) * ModelsPerPage, n);
      assert start < n;
      assert pages[i] == filtered[start..end];
      assert filtered[start..] == filtered[start..end] + filtered[end..];
    }
  }

  /** Concatenating the slices of pages 1 to `TotalPages(n)` gives back the
      filtered list: every record is on exactly one page, in order. */
  lemma PagesReassemble<T>(filtered: seq<T>)
    ensures Flatten(AllPages(filtered)) == filtered
  {
    PagesFromReassemble(filtered, 0);
    assert AllPages(filtered)[0..] == AllPages(filtered);
  }

  /** Every page in range holds between one and `ModelsPerPage` records, and
      every page after the last is empty. */
  lemma PageSizes<T>(filtered: seq<T>, page: nat)
    requires page >= 1
    ensures page <= TotalPages(|filtered|) ==> 1 <= |PageSlice(filtered, page)| <= ModelsPerPage
    ensures page > TotalPages(|filtered|) ==> PageSlice(filtered, page) == []
  {
  }

  // ---------------------------------------------------------------- page state

  /** The range `1 <= currentPage <= max(1, ceil(n / 8))` in which the
      gallery keeps its page for a filtered list of `n` records. */
  predicate PageInRange(page: nat, n: nat) {
    1 <= page <= Max(1, TotalPages(n))
  }

  /** The prev handler's update: one page back unless on page 1. */
  function PrevPage(page: nat): nat {
    if page > 1 then page - 1 else page
  }

  /** The next handler's update: one page on unless on the last page. */
  function NextPage(page: nat, n: nat): nat {
    if page < TotalPages(n) then page + 1 else page
  }

  /** Choosing a filter, paging back and paging on all keep the page in range,
      and a page in range shows records whenever the filtered list has any. */
  lemma TransitionsKeepPageInRange(page: nat, n: nat, m: nat)
    requires PageInRange(page, n)
    ensures PageInRange(1, m)
    ensures PageInRange(PrevPage(page), n)
    ensures PageInRange(NextPage(page, n), n)
    ensures n > 0 ==> (page - 1) * ModelsPerPage < n
  {
  }
}
