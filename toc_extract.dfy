/**
 * Table-of-contents extraction (`extractTocFromBlocks` in src/lib/utils.ts):
 * one entry per top-level heading block, in order. Heading 1 and heading 2
 * both get level 1 and heading 3 gets level 2.
 */
module Utils {
  import opened Wrappers
  import opened NotionTypes

  predicate IsHeading(b: Block) {
    b.kind.Heading1? || b.kind.Heading2? || b.kind.Heading3?
  }

  /** The TOC level a heading is shown at. */
  function TocLevel(k: BlockKind): int {
    if k.Heading3? then 2 else 1
  }

  /** The TOC entry of a heading block: its id, its first segment's text, its level. */
  function Entry(b: Block): (t: TocItem)
    requires IsHeading(b)
    ensures t.id == b.id && t.text == FirstPlainText(b.kind.richText)
    ensures t.level == 1 || t.level == 2
    ensures t.level == 2 <==> b.kind.Heading3?
  {
    TocItem(b.id, FirstPlainText(b.kind.richText), TocLevel(b.kind))
  }

  /** The heading blocks of `bs`, in order. */
  function Headings(bs: seq<Block>): (hs: seq<Block>)
    ensures |hs| <= |bs|
    ensures forall i :: 0 <= i < |hs| ==> IsHeading(hs[i])
  {
    if bs == [] then []
    else (if IsHeading(bs[0]) then [bs[0]] else []) + Headings(bs[1..])
  }

  lemma {:induction false} HeadingsAppend(a: seq<Block>, b: seq<Block>)
    ensures Headings(a + b) == Headings(a) + Headings(b)
  {
    if a == [] {
      assert a + b == b;
    } else {
      assert (a + b)[1..] == a[1..] + b;
      HeadingsAppend(a[1..], b);
    }
  }

  /** A block is kept iff it is a heading: nothing else is, and no heading is dropped. */
  lemma {:induction false} HeadingsMembers(bs: seq<Block>, b: Block)
    ensures b in Headings(bs) <==> b in bs && IsHeading(b)
  {
    if bs != [] {
      HeadingsMembers(bs[1..], b);
      assert bs == [bs[0]] + bs[1..];
    }
  }

  /** Only headings count: the number of entries is the number of heading blocks. */
  function CountHeadings(bs: seq<Block>): nat {
    if bs == [] then 0 else (if IsHeading(bs[0]) then 1 else 0) + CountHeadings(bs[1..])
  }

  lemma {:induction false} HeadingsCount(bs: seq<Block>)
    ensures |Headings(bs)| == CountHeadings(bs)
  {
    if bs != [] {
      HeadingsCount(bs[1..]);
    }
  }

  /** The entries of a list of headings, in order. */
  function Entries(hs: seq<Block>): (toc: seq<TocItem>)
    requires forall i :: 0 <= i < |hs| ==> IsHeading(hs[i])
    ensures |toc| == |hs|
    ensures forall i :: 0 <= i < |hs| ==> toc[i] == Entry(hs[i])
  {
    seq(|hs|, i requires 0 <= i < |hs| => Entry(hs[i]))
  }

  /**
   * `extractTocFromBlocks`: the `forEach` over the given blocks (no descent
   * into children) pushing one entry per heading.
   */
  method ExtractToc(blocks: seq<Block>) returns (toc: seq<TocItem>)
    ensures toc == Entries(Headings(blocks))
    ensures |toc| <= |blocks|
    ensures forall i :: 0 <= i < |toc| ==> toc[i].level == 1 || toc[i].level == 2
  {
    toc := [];
    for i := 0 to |blocks|
      invariant toc == Entries(Headings(blocks[..i]))
    {
      var block := blocks[i];
      HeadingsAppend(blocks[..i], [block]);
      assert blocks[..i + 1] == blocks[..i] + [block];
      if block.kind.Heading1? {
        toc := toc + [TocItem(block.id, FirstPlainText(block.kind.richText), 1)];
      } else if block.kind.Heading2? {
        toc := toc + [TocItem(block.id, FirstPlainText(block.kind.richText), 1)];
      } else if block.kind.Heading3? {
        toc := toc + [TocItem(block.id, FirstPlainText(block.kind.richText), 2)];
      }
    }
    assert blocks[..|blocks|] == blocks;
  }
}
