/**
 * The general table of contents (src/components/TableOfContents.tsx): the
 * same active-heading rule and click lock as the post page's, but the
 * panel starts open whatever the viewport.
 */
module TableOfContents {
  import opened NotionTypes
  import opened Wrappers
  import opened ActiveHeading

  class Toc {
    const toc: seq<TocItem>
    var activeId: string
    var isOpen: bool
    var locked: bool

    constructor (toc: seq<TocItem>)
      ensures this.toc == toc && activeId == "" && isOpen && !locked
    {
      this.toc := toc;
      activeId := "";
      isOpen := true;
      locked := false;
    }

    /**
     * `findActiveHeading`: nothing while a click holds the lock; otherwise
     * the scan's candidate, overridden at the page bottom, falling back to
     * the first item.
     */
    method FindActiveHeading(tops: seq<Option<real>>, innerHeight: real, scrollY: real, offsetHeight: real)
      requires |tops| == |toc|
      modifies this
      ensures old(locked) ==> activeId == old(activeId)
      ensures !old(locked) ==>
        activeId == Chosen(old(activeId), toc, Candidate(toc, tops), AtBottom(innerHeight, scrollY, offsetHeight))
      ensures isOpen == old(isOpen) && locked == old(locked)
      ensures !Renders() ==> activeId == old(activeId)
    {
      if locked {
        return;
      }
      var bestCandidateId := ScanCandidate(toc, tops);
      if innerHeight + scrollY >= offsetHeight - 50.0 {
        if |toc| > 0 {
          bestCandidateId := toc[|toc| - 1].id;
        }
      }
      if bestCandidateId != "" {
        activeId := bestCandidateId;
      } else if |toc| > 0 {
        activeId := toc[0].id;
      }
    }

    /** `handleClick`: the clicked item becomes active and the lock is set. */
    method HandleClick(id: string)
      modifies this
      ensures activeId == id && locked && isOpen == old(isOpen)
    {
      locked := true;
      activeId := id;
    }

    /** `handleHashChange`: a non-empty hash target becomes active under the lock. */
    method HandleHashChange(hash: string)
      modifies this
      ensures HashTarget(hash) != "" ==> activeId == HashTarget(hash) && locked
      ensures HashTarget(hash) == "" ==> activeId == old(activeId) && locked == old(locked)
      ensures isOpen == old(isOpen)
    {
      var target := HashTarget(hash);
      if target != "" {
        locked := true;
        activeId := target;
      }
    }

    /** The timer that ends the lock a second after a click or hash change. */
    method ReleaseLock()
      modifies this
      ensures !locked && activeId == old(activeId) && isOpen == old(isOpen)
    {
      locked := false;
    }

    /** The hide and show buttons. */
    method SetOpen(open: bool)
      modifies this
      ensures isOpen == open && activeId == old(activeId) && locked == old(locked)
    {
      isOpen := open;
    }

    /** The component renders anything only for a non-empty TOC. */
    function Renders(): (r: bool)
      ensures r <==> |toc| > 0
    {
      |toc| != 0
    }

    /** The link of `item` is highlighted iff it is the active one. */
    function Highlighted(item: TocItem): (r: bool)
      reads this
      ensures r <==> activeId == item.id
    {
      activeId == item.id
    }
  }

  /** While the lock is held, no scroll recomputation moves the active id. */
  method ClickThenScroll(t: Toc, id: string, tops: seq<Option<real>>,
                         innerHeight: real, scrollY: real, offsetHeight: real)
    requires |tops| == |t.toc|
    modifies t
    ensures t.activeId == id && t.locked
  {
    t.HandleClick(id);
    t.FindActiveHeading(tops, innerHeight, scrollY, offsetHeight);
  }

  /** TOC ids that are pairwise distinct, as block ids are. */
  ghost predicate DistinctIds(toc: seq<TocItem>) {
    forall a, b :: 0 <= a < b < |toc| ==> toc[a].id != toc[b].id
  }

  /** With distinct ids, at most one item is highlighted. */
  lemma HighlightUnique(t: Toc, i: int, j: int)
    requires DistinctIds(t.toc)
    requires 0 <= i < |t.toc| && 0 <= j < |t.toc|
    requires t.Highlighted(t.toc[i]) && t.Highlighted(t.toc[j])
    ensures i == j
  {
  }

  /**
   * A scroll over a rendered TOC with distinct ids and no click lock
   * leaves exactly one item highlighted.
   */
  method ScrollHighlightsOne(t: Toc, tops: seq<Option<real>>,
                             innerHeight: real, scrollY: real, offsetHeight: real)
    requires |tops| == |t.toc| && t.Renders() && !t.locked && DistinctIds(t.toc)
    modifies t
    ensures exists i ::
      && 0 <= i < |t.toc| && t.Highlighted(t.toc[i])
      && forall j :: 0 <= j < |t.toc| && t.Highlighted(t.toc[j]) ==> j == i
  {
    t.FindActiveHeading(tops, innerHeight, scrollY, offsetHeight);
    ChosenIsItemOrActive(old(t.activeId), t.toc, tops, AtBottom(innerHeight, scrollY, offsetHeight));
    var i :| 0 <= i < |t.toc| && t.toc[i].id == t.activeId;
    forall j | 0 <= j < |t.toc| && t.Highlighted(t.toc[j])
      ensures j == i
    {
      HighlightUnique(t, i, j);
    }
  }
}
