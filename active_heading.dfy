/**
 * The active-heading rule shared by the two table-of-contents components
 * (`findActiveHeading` in src/components/features/post/TableOfContents.tsx
 * and src/components/TableOfContents.tsx).
 *
 * The page geometry is given: for each TOC item the `top` of its heading's
 * bounding rectangle, or None when the document has no element with that
 * id (an item with the empty id never has one), and the three numbers of
 * the page-bottom test.
 */
module ActiveHeading {
  import opened Wrappers
  import opened NotionTypes

  /** A heading at or above this many pixels from the viewport top has been reached. */
  const TopOffset: real := 150.0

  predicate Reached(top: Option<real>) {
    top.Some? && top.value <= TopOffset
  }

  predicate Below(top: Option<real>) {
    top.Some? && top.value > TopOffset
  }

  /** Scrolled to within 50 pixels of the bottom of the page. */
  predicate AtBottom(innerHeight: real, scrollY: real, offsetHeight: real)
    ensures AtBottom(innerHeight, scrollY, offsetHeight) <==> offsetHeight - (innerHeight + scrollY) <= 50.0
  {
    innerHeight + scrollY >= offsetHeight - 50.0
  }

  /** Scrolling further down never leaves the bottom zone. */
  lemma AtBottomMonotone(innerHeight: real, scrollY: real, scrollY': real, offsetHeight: real)
    requires AtBottom(innerHeight, scrollY, offsetHeight) && scrollY <= scrollY'
    ensures AtBottom(innerHeight, scrollY', offsetHeight)
  {
  }

  /**
   * Where the scan stops: the first item whose element exists and lies
   * below the offset, or the end of the TOC.
   */
  function StopIndex(tops: seq<Option<real>>): (k: nat)
    ensures k <= |tops|
    ensures forall j :: 0 <= j < k ==> !Below(tops[j])
    ensures k < |tops| ==> Below(tops[k])
  {
    if tops == [] then 0
    else if Below(tops[0]) then 0
    else 1 + StopIndex(tops[1..])
  }

  /** The last of the first `n` items that has an element. */
  function LastPresent(tops: seq<Option<real>>, n: nat): (r: Option<nat>)
    requires n <= |tops|
    ensures r.Some? ==> r.value < n && tops[r.value].Some?
    ensures r.Some? ==> forall j :: r.value < j < n ==> tops[j].None?
    ensures r.None? ==> forall j :: 0 <= j < n ==> tops[j].None?
  {
    if n == 0 then None
    else if tops[n - 1].Some? then Some(n - 1)
    else LastPresent(tops, n - 1)
  }

  /**
   * What `document.getElementById(item.id)` finds for each item: never an
   * element for the empty id, otherwise the given geometry.
   */
  function Found(toc: seq<TocItem>, tops: seq<Option<real>>): (found: seq<Option<real>>)
    requires |tops| == |toc|
    ensures |found| == |toc|
    ensures forall i :: 0 <= i < |toc| ==> found[i] == if toc[i].id == "" then None else tops[i]
  {
    seq(|toc|, i requires 0 <= i < |toc| => if toc[i].id == "" then None else tops[i])
  }

  /**
   * The scan's candidate: the id of the last reached item before the stop,
   * or '' when no item before the stop has an element.
   */
  function Candidate(toc: seq<TocItem>, tops: seq<Option<real>>): string
    requires |tops| == |toc|
  {
    var found := Found(toc, tops);
    match LastPresent(found, StopIndex(found))
    case None => ""
    case Some(j) => toc[j].id
  }

  /** The candidate is a reached item, and every item with an element up to the stop comes no later. */
  lemma CandidateReached(toc: seq<TocItem>, tops: seq<Option<real>>)
    requires |tops| == |toc|
    ensures var found := Found(toc, tops); var r := LastPresent(found, StopIndex(found));
      && (r.Some? ==> Reached(found[r.value]) && toc[r.value].id != "" && Candidate(toc, tops) == toc[r.value].id)
      && (r.Some? ==> forall j :: r.value < j < |found| && found[j].Some? ==> j >= StopIndex(found))
      && (r.None? ==> Candidate(toc, tops) == "")
  {
  }

  /** An item with the empty id has no element, so the scan passes over it whatever its geometry. */
  lemma EmptyIdSkipped()
    ensures Candidate([TocItem("x", "", 1), TocItem("a", "", 1), TocItem("", "", 1)],
                      [Some(0.0), Some(0.0), Some(0.0)]) == "a"
  {
    var toc := [TocItem("x", "", 1), TocItem("a", "", 1), TocItem("", "", 1)];
    var found := Found(toc, [Some(0.0), Some(0.0), Some(0.0)]);
    assert found == [Some(0.0), Some(0.0), None];
    assert StopIndex(found) == 3 by {
      assert found[1..] == [Some(0.0), None];
      assert found[1..][1..] == [None];
      assert found[1..][1..][1..] == [];
    }
  }

  /**
   * The `for ... of toc` loop of `findActiveHeading`: items without an
   * element are skipped, a reached item becomes the candidate, and the
   * first item below the offset ends the loop.
   */
  method ScanCandidate(toc: seq<TocItem>, tops: seq<Option<real>>) returns (best: string)
    requires |tops| == |toc|
    ensures best == Candidate(toc, tops)
  {
    best := "";
    var i := 0;
    while i < |toc|
      invariant 0 <= i <= StopIndex(Found(toc, tops))
      invariant best == (match LastPresent(Found(toc, tops), i) case None => "" case Some(j) => toc[j].id)
    {
      if toc[i].id == "" || tops[i].None? {
        i := i + 1;
        continue;
      }
      if tops[i].value <= TopOffset {
        best := toc[i].id;
      } else {
        break;
      }
      i := i + 1;
    }
  }

  /**
   * The id `findActiveHeading` sets, from the current one: the bottom
   * override replaces the candidate with the last item; an empty result
   * falls back to the first item; an empty TOC keeps the current id.
   */
  function Chosen(active: string, toc: seq<TocItem>, candidate: string, atBottom: bool): (r: string)
    ensures r == active || r == candidate || exists i :: 0 <= i < |toc| && toc[i].id == r
    ensures |toc| > 0 && r == "" ==> toc[0].id == ""
  {
    var best := if atBottom && |toc| > 0 then toc[|toc| - 1].id else candidate;
    if best != "" then best
    else if |toc| > 0 then toc[0].id
    else active
  }

  /** At the bottom of the page the last item wins over any candidate. */
  lemma BottomPicksLast(active: string, toc: seq<TocItem>, candidate: string)
    requires |toc| > 0 && toc[|toc| - 1].id != ""
    ensures Chosen(active, toc, candidate, true) == toc[|toc| - 1].id
  {
  }

  /** Away from the bottom, a non-empty candidate is taken as is. */
  lemma CandidateKept(active: string, toc: seq<TocItem>, candidate: string)
    requires candidate != ""
    ensures Chosen(active, toc, candidate, false) == candidate
  {
  }

  /** With no candidate (and not at the bottom), the first item is chosen. */
  lemma FirstAsFallback(active: string, toc: seq<TocItem>)
    requires |toc| > 0
    ensures Chosen(active, toc, "", false) == toc[0].id
  {
  }

  /** An empty TOC never changes the active id. */
  lemma EmptyTocUnchanged(active: string, atBottom: bool)
    ensures Chosen(active, [], Candidate([], []), atBottom) == active
  {
  }

  /** The chosen id is always an item of a non-empty TOC or the previous active id. */
  lemma ChosenIsItemOrActive(active: string, toc: seq<TocItem>, tops: seq<Option<real>>, atBottom: bool)
    requires |tops| == |toc|
    ensures var c := Chosen(active, toc, Candidate(toc, tops), atBottom);
      (exists i :: 0 <= i < |toc| && toc[i].id == c) || (toc == [] && c == active)
  {
    var cand := Candidate(toc, tops);
    var c := Chosen(active, toc, cand, atBottom);
    if toc != [] {
      if atBottom && toc[|toc| - 1].id != "" {
        assert toc[|toc| - 1].id == c;
      } else if !atBottom && cand != "" {
        var found := Found(toc, tops);
        var j := LastPresent(found, StopIndex(found)).value;
        assert toc[j].id == c;
      } else {
        assert toc[0].id == c;
      }
    }
  }

  /** `window.location.hash.slice(1)`: the hash without its leading '#'. */
  function HashTarget(hash: string): (t: string)
    ensures |hash| > 0 ==> hash == [hash[0]] + t
    ensures hash == "" ==> t == ""
  {
    if |hash| > 0 then hash[1..] else ""
  }
}
