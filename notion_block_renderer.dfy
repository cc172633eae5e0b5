/**
 * The sibling-block renderer of
 * src/components/features/post/NotionBlockRenderer.tsx: one pass over the
 * blocks that collapses every run of consecutive list items of one kind into
 * a single `ul`/`ol` and emits every other block on its own.
 */
module NotionBlockRenderer {
  import opened Wrappers
  import opened NotionTypes
  import opened NotionBlock

  /** One emitted element: a block on its own, or a list holding a run of items. */
  datatype Group =
    | Single(block: Block)
    | ListGroup(kind: ListKind, tag: ListTag, style: string, key: string, items: seq<Block>)

  const NumberedStyles: seq<string> := ["list-decimal", "list-[lower-alpha]", "list-[lower-roman]"]
  const BulletedStyles: seq<string> := ["list-disc", "list-[circle]", "list-[square]"]

  /** `ol` for numbered items, `ul` otherwise. */
  function TagOf(k: ListKind): (t: ListTag)
    ensures t == Ol <==> k == Numbered
  {
    if k == Numbered then Ol else Ul
  }

  /** The list style for a nesting level: the level modulo 3 picks from the kind's table. */
  function ListStyle(k: ListKind, level: nat): string {
    if k == Numbered then NumberedStyles[level % |NumberedStyles|]
    else BulletedStyles[level % |BulletedStyles|]
  }

  /** The list style cycles with period 3 in the nesting level. */
  lemma ListStylePeriodic(k: ListKind, level: nat)
    ensures ListStyle(k, level + 3) == ListStyle(k, level)
    ensures k == Numbered ==> ListStyle(k, level) in NumberedStyles
    ensures k == Bulleted ==> ListStyle(k, level) in BulletedStyles
  {
  }

  /** The blocks of the groups, in order. */
  function Flatten(gs: seq<Group>): seq<Block> {
    if gs == [] then []
    else (match gs[0] case Single(b) => [b] case ListGroup(_, _, _, _, items) => items) + Flatten(gs[1..])
  }

  lemma {:induction false} FlattenAppend(a: seq<Group>, b: seq<Group>)
    ensures Flatten(a + b) == Flatten(a) + Flatten(b)
  {
    if a == [] {
      assert a + b == b;
    } else {
      assert (a + b)[1..] == a[1..] + b;
      FlattenAppend(a[1..], b);
    }
  }

  /** Every block of `items` is a list item of kind `k`. */
  ghost predicate AllOfKind(items: seq<Block>, k: ListKind) {
    forall i :: 0 <= i < |items| ==> ListKindOf(items[i]) == Some(k)
  }

  /** The list group the renderer builds from a non-empty run of items. */
  function MakeList(k: ListKind, level: nat, items: seq<Block>): Group
    requires items != []
  {
    ListGroup(k, TagOf(k), ListStyle(k, level), "list-" + items[0].id, items)
  }

  /**
   * A group as the renderer emits it: a single block is not a list item; a
   * list is non-empty, holds items of its own kind only, and its tag, style
   * and key follow from its kind, the level and its first item.
   */
  ghost predicate WellFormedGroup(g: Group, level: nat) {
    match g
    case Single(b) => ListKindOf(b).None?
    case ListGroup(k, _, _, _, items) =>
      items != [] && AllOfKind(items, k) && g == MakeList(k, level, items)
  }

  ghost predicate WellFormed(gs: seq<Group>, level: nat) {
    forall i :: 0 <= i < |gs| ==> WellFormedGroup(gs[i], level)
  }

  /** No two adjacent lists have the same kind: every run was collapsed into one list. */
  ghost predicate Maximal(gs: seq<Group>) {
    forall i :: 0 <= i < |gs| - 1 && gs[i].ListGroup? && gs[i + 1].ListGroup? ==> gs[i].kind != gs[i + 1].kind
  }

  /** The renderer's local state: the output so far, the pending run and its kind. */
  class Renderer {
    const level: nat
    var rendered: seq<Group>
    var listGroup: seq<Block>
    var listType: Option<ListKind>

    ghost predicate Valid()
      reads this
    {
      && (listType.None? <==> listGroup == [])
      && (listType.Some? ==> AllOfKind(listGroup, listType.value))
      && WellFormed(rendered, level)
      && Maximal(rendered)
      && (listType.Some? && rendered != [] && rendered[|rendered| - 1].ListGroup? ==>
            rendered[|rendered| - 1].kind != listType.value)
    }

    /** Between two blocks no list is pending unless a run is open: the last output is not a list. */
    ghost predicate Settled()
      reads this
    {
      listType.None? ==> rendered == [] || rendered[|rendered| - 1].Single?
    }

    ghost function Emitted(): seq<Block>
      reads this
    {
      Flatten(rendered) + listGroup
    }

    constructor (level: nat)
      ensures Valid() && Settled()
      ensures this.level == level && rendered == [] && listGroup == [] && listType == None
    {
      this.level := level;
      rendered := [];
      listGroup := [];
      listType := None;
    }

    /**
     * `flushList`: emits the pending run as one list, or nothing when there
     * is none; afterwards no run is pending.
     */
    method FlushList()
      requires Valid()
      modifies this
      ensures Valid()
      ensures listGroup == [] && listType == None
      ensures old(listGroup) == [] ==> rendered == old(rendered)
      ensures old(listGroup) != [] ==>
        rendered == old(rendered) + [MakeList(old(listType).value, level, old(listGroup))]
      ensures Emitted() == old(Emitted())
    {
      if listGroup == [] {
        return;
      }
      var group := MakeList(listType.value, level, listGroup);
      FlattenAppend(rendered, [group]);
      rendered := rendered + [group];
      listGroup := [];
      listType := None;
    }

    /** The body of the `forEach`: extends the run, or closes it and emits the block alone. */
    method Accept(block: Block)
      requires Valid() && Settled()
      modifies this
      ensures Valid() && Settled()
      ensures Emitted() == old(Emitted()) + [block]
      ensures ListKindOf(block).Some? ==>
        listType == ListKindOf(block) &&
        (old(listType).Some? && old(listType) != listType ==>
           listGroup == [block] && rendered == old(rendered) + [MakeList(old(listType).value, level, old(listGroup))]) &&
        (old(listType).None? ==> listGroup == [block] && rendered == old(rendered)) &&
        (old(listType) == listType ==> listGroup == old(listGroup) + [block] && rendered == old(rendered))
      ensures ListKindOf(block).None? ==>
        && listType == None && listGroup == []
        && (old(listType).Some? ==>
              rendered == old(rendered) + [MakeList(old(listType).value, level, old(listGroup)), Single(block)])
        && (old(listType).None? ==> rendered == old(rendered) + [Single(block)])
    {
      var kind := ListKindOf(block);
      if kind.Some? {
        if listType.Some? && listType != kind {
          FlushList();
        }
        listType := kind;
        listGroup := listGroup + [block];
      } else {
        FlushList();
        FlattenAppend(rendered, [Single(block)]);
        rendered := rendered + [Single(block)];
      }
    }
  }

  /**
   * `NotionBlockRenderer`: the emitted groups flatten back to the input,
   * every group is well formed, and runs are maximal.
   */
  method RenderBlocks(blocks: seq<Block>, level: nat) returns (out: seq<Group>)
    ensures Flatten(out) == blocks
    ensures WellFormed(out, level)
    ensures Maximal(out)
  {
    var r := new Renderer(level);
    for i := 0 to |blocks|
      invariant r.Valid() && r.Settled() && r.level == level
      invariant r.Emitted() == blocks[..i]
    {
      r.Accept(blocks[i]);
      assert blocks[..i + 1] == blocks[..i] + [blocks[i]];
    }
    r.FlushList();
    assert blocks[..|blocks|] == blocks;
    out := r.rendered;
  }

  /** The length of the run of items of kind `k` at the front of `bs`. */
  function RunLength(bs: seq<Block>, k: ListKind): (n: nat)
    ensures n <= |bs|
  {
    if bs != [] && ListKindOf(bs[0]) == Some(k) then 1 + RunLength(bs[1..], k) else 0
  }

  lemma {:induction false} RunLengthOf(bs: seq<Block>, items: seq<Block>, rest: seq<Block>, k: ListKind)
    requires bs == items + rest
    requires AllOfKind(items, k)
    requires rest == [] || ListKindOf(rest[0]) != Some(k)
    ensures RunLength(bs, k) == |items|
  {
    if items != [] {
      assert bs[1..] == items[1..] + rest;
      RunLengthOf(bs[1..], items[1..], rest, k);
    }
  }

  /**
   * The grouping is determined by its three properties: two group sequences
   * that are well formed, maximal and flatten to the same blocks are equal.
   * So RenderBlocks' contract pins its output down completely.
   */
  lemma {:induction false} GroupingUnique(gs1: seq<Group>, gs2: seq<Group>, level: nat)
    requires WellFormed(gs1, level) && Maximal(gs1)
    requires WellFormed(gs2, level) && Maximal(gs2)
    requires Flatten(gs1) == Flatten(gs2)
    ensures gs1 == gs2
  {
    if gs1 == [] || gs2 == [] {
      NonEmptyFlatten(gs1, level);
      NonEmptyFlatten(gs2, level);
      return;
    }
    var bs := Flatten(gs1);
    var g1, g2 := gs1[0], gs2[0];
    assert WellFormedGroup(g1, level) && WellFormedGroup(g2, level);
    FirstBlock(gs1, level);
    FirstBlock(gs2, level);
    if g1.Single? {
      assert g2.Single?;
      assert g1 == g2;
    } else {
      assert g2.ListGroup? && g1.kind == g2.kind;
      FrontRun(gs1, level);
      FrontRun(gs2, level);
      assert g1.items == bs[..|g1.items|];
      assert g2.items == bs[..|g2.items|];
      assert g1 == g2;
    }
    assert Flatten(gs1) == GroupBlocks(g1) + Flatten(gs1[1..]);
    assert Flatten(gs2) == GroupBlocks(g2) + Flatten(gs2[1..]);
    TailProperties(gs1, level);
    TailProperties(gs2, level);
    GroupingUnique(gs1[1..], gs2[1..], level);
  }

  function GroupBlocks(g: Group): seq<Block> {
    match g case Single(b) => [b] case ListGroup(_, _, _, _, items) => items
  }

  lemma NonEmptyFlatten(gs: seq<Group>, level: nat)
    requires WellFormed(gs, level)
    ensures gs == [] <==> Flatten(gs) == []
  {
    if gs != [] {
      assert WellFormedGroup(gs[0], level);
      assert |Flatten(gs)| >= |GroupBlocks(gs[0])| > 0;
    }
  }

  /** The first block of the flattening is the first block of the first group. */
  lemma FirstBlock(gs: seq<Group>, level: nat)
    requires gs != [] && WellFormed(gs, level)
    ensures Flatten(gs) != [] && Flatten(gs)[0] == GroupBlocks(gs[0])[0]
    ensures gs[0].ListGroup? <==> ListKindOf(Flatten(gs)[0]).Some?
    ensures gs[0].ListGroup? ==> ListKindOf(Flatten(gs)[0]) == Some(gs[0].kind)
  {
    assert WellFormedGroup(gs[0], level);
  }

  /** A list group at the front covers exactly the front run of its kind. */
  lemma FrontRun(gs: seq<Group>, level: nat)
    requires gs != [] && gs[0].ListGroup? && WellFormed(gs, level) && Maximal(gs)
    ensures |gs[0].items| == RunLength(Flatten(gs), gs[0].kind)
    ensures Flatten(gs)[..|gs[0].items|] == gs[0].items
  {
    var g := gs[0];
    assert WellFormedGroup(g, level);
    var rest := Flatten(gs[1..]);
    assert Flatten(gs) == g.items + rest;
    if rest != [] {
      TailProperties(gs, level);
      NonEmptyFlatten(gs[1..], level);
      FirstBlock(gs[1..], level);
      assert gs[1..][0] == gs[1];
      if gs[1].ListGroup? {
        assert gs[0].kind != gs[1].kind;
      }
    }
    RunLengthOf(Flatten(gs), g.items, rest, g.kind);
  }

  lemma TailProperties(gs: seq<Group>, level: nat)
    requires gs != [] && WellFormed(gs, level) && Maximal(gs)
    ensures WellFormed(gs[1..], level) && Maximal(gs[1..])
  {
    forall i | 0 <= i < |gs[1..]|
      ensures WellFormedGroup(gs[1..][i], level)
    {
      assert gs[1..][i] == gs[i + 1];
    }
  }

  /** The markup of one group: a single block's own element, or the list element around its items. */
  function GroupMarkup(g: Group): (m: Option<Markup>)
    requires g.ListGroup? ==> AllOfKind(g.items, g.kind)
    ensures g.ListGroup? ==>
      m.Some? && m.value.List? && m.value.tag == g.tag && m.value.key == g.key &&
      |m.value.items| == |g.items| &&
      forall i :: 0 <= i < |g.items| ==> m.value.items[i].Li? && m.value.items[i].kind == g.kind
    ensures g.Single? ==> m == RenderBlock(g.block)
  {
    match g
    case Single(b) => RenderBlock(b)
    case ListGroup(k, tag, style, key, items) =>
      Some(List(tag, style, key, seq(|items|, i requires 0 <= i < |items| => RenderBlock(items[i]).value)))
  }
}
