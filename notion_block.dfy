/**
 * Rendering of one Notion block and of its rich text into a small markup
 * tree (the JSX elements of src/components/features/post/NotionBlock.tsx,
 * without their CSS classes).
 */
module NotionBlock {
  import opened Wrappers
  import opened NotionTypes

  /** The elements the block renderer produces. */
  datatype Markup =
    | Text(text: string)
    | Strong(inner: Markup)
    | Em(inner: Markup)
    | S(inner: Markup)
    | U(inner: Markup)
    | Code(inner: Markup)
    // an external link, opened in a new tab
    | A(href: string, inner: Markup)
    | Span(inner: Markup)
    | P(children: seq<Markup>)
    // h1/h2/h3 carrying the block id and a self-link around the text
    | Heading(level: nat, id: string, href: string, children: seq<Markup>)
    | Li(kind: ListKind, children: seq<Markup>)
    | Blockquote(children: seq<Markup>)
    | CodeListing(language: string, code: string)
    | Figure(src: string, alt: string, figcaption: Option<string>)
    | Hr
    // a whole list, produced by NotionBlockRenderer
    | List(tag: ListTag, style: string, key: string, items: seq<Markup>)

  datatype ListTag = Ul | Ol

  /** The five annotation wrappers, as tags. */
  datatype Wrapper = WStrong | WEm | WS | WU | WCode

  /** The wrapper tags around an inline element, outermost first. */
  function WrapperChain(m: Markup): seq<Wrapper> {
    match m
    case Strong(x) => [WStrong] + WrapperChain(x)
    case Em(x) => [WEm] + WrapperChain(x)
    case S(x) => [WS] + WrapperChain(x)
    case U(x) => [WU] + WrapperChain(x)
    case Code(x) => [WCode] + WrapperChain(x)
    case _ => []
  }

  /** What is left inside all the annotation wrappers. */
  function Core(m: Markup): Markup {
    match m
    case Strong(x) => Core(x)
    case Em(x) => Core(x)
    case S(x) => Core(x)
    case U(x) => Core(x)
    case Code(x) => Core(x)
    case _ => m
  }

  function If(b: bool, w: Wrapper): seq<Wrapper> {
    if b then [w] else []
  }

  /** Puts one annotation wrapper around `m` when `on` holds. */
  function WrapIf(on: bool, w: Wrapper, m: Markup): (r: Markup)
    ensures Core(r) == Core(m)
    ensures WrapperChain(r) == If(on, w) + WrapperChain(m)
  {
    if !on then m
    else match w
      case WStrong => Strong(m)
      case WEm => Em(m)
      case WS => S(m)
      case WU => U(m)
      case WCode => Code(m)
  }

  /**
   * Wraps a segment's text in its annotations: bold innermost, then italic,
   * strikethrough, underline, and code outermost.
   */
  function Annotate(text: string, a: Annotations): (r: Markup)
    ensures Core(r) == Text(text)
    ensures WrapperChain(r) ==
      If(a.code, WCode) + (If(a.underline, WU) + (If(a.strikethrough, WS) + (If(a.italic, WEm) + If(a.bold, WStrong))))
  {
    var c1 := WrapIf(a.bold, WStrong, Text(text));
    var c2 := WrapIf(a.italic, WEm, c1);
    var c3 := WrapIf(a.strikethrough, WS, c2);
    var c4 := WrapIf(a.underline, WU, c3);
    assert If(a.bold, WStrong) + [] == If(a.bold, WStrong);
    WrapIf(a.code, WCode, c4)
  }

  /**
   * Reads the annotations back off a wrapper nest, expecting the wrappers in
   * Annotate's fixed order; None for anything else.
   */
  function Peel(m: Markup): Option<(Annotations, string)> {
    var (code, m4) := if m.Code? then (true, m.inner) else (false, m);
    var (underline, m3) := if m4.U? then (true, m4.inner) else (false, m4);
    var (strike, m2) := if m3.S? then (true, m3.inner) else (false, m3);
    var (italic, m1) := if m2.Em? then (true, m2.inner) else (false, m2);
    var (bold, m0) := if m1.Strong? then (true, m1.inner) else (false, m1);
    if m0.Text? then Some((Annotations(bold, italic, strike, underline, code), m0.text)) else None
  }

  /** Annotate loses nothing: the annotations and the text can be read back. */
  lemma AnnotatePeel(text: string, a: Annotations)
    ensures Peel(Annotate(text, a)) == Some((a, text))
  {
  }

  /** One rich-text segment: an external link around the wrappers when it has an href, else a span. */
  function Segment(t: RichTextItem): (r: Markup)
    ensures Truthy(t.href) ==> r.A? && r.href == t.href.value
    ensures !Truthy(t.href) ==> r.Span?
    ensures Peel(r.inner) == Some((t.annotations, t.plainText))
  {
    var content := Annotate(t.plainText, t.annotations);
    AnnotatePeel(t.plainText, t.annotations);
    if Truthy(t.href) then A(t.href.value, content) else Span(content)
  }

  /** Rich text: nothing when it is missing, else one element per segment, in order. */
  function RichText(text: Option<seq<RichTextItem>>): (r: seq<Markup>)
    ensures text.None? ==> r == []
    ensures text.Some? ==> |r| == |text.value| && forall i :: 0 <= i < |r| ==> r[i] == Segment(text.value[i])
  {
    match text
    case None => []
    case Some(ts) => seq(|ts|, i requires 0 <= i < |ts| => Segment(ts[i]))
  }

  /** The concatenation of the segments' plain text (`map(plain_text).join('')`). */
  function PlainText(ts: seq<RichTextItem>): (r: string)
    ensures |ts| == 1 ==> r == ts[0].plainText
  {
    if ts == [] then "" else ts[0].plainText + PlainText(ts[1..])
  }

  /** PlainText distributes over concatenation of segment lists. */
  lemma {:induction false} PlainTextAppend(a: seq<RichTextItem>, b: seq<RichTextItem>)
    ensures PlainText(a + b) == PlainText(a) + PlainText(b)
  {
    if a == [] {
      assert a + b == b;
    } else {
      assert (a + b)[1..] == a[1..] + b;
      PlainTextAppend(a[1..], b);
    }
  }

  /** The length of the code text is the sum of the segments' lengths. */
  function TotalLength(ts: seq<RichTextItem>): nat {
    if ts == [] then 0 else |ts[0].plainText| + TotalLength(ts[1..])
  }

  lemma {:induction false} PlainTextLength(ts: seq<RichTextItem>)
    ensures |PlainText(ts)| == TotalLength(ts)
  {
    if ts != [] {
      PlainTextLength(ts[1..]);
    }
  }

  /** The markup of one block; None (React's null) for a type the renderer does not support. */
  function RenderBlock(b: Block): (r: Option<Markup>)
    ensures r.None? <==> b.kind.Unsupported?
  {
    match b.kind
    case Paragraph(rt) => Some(P(RichText(Some(rt))))
    case Heading1(rt) => Some(Heading(1, b.id, "#" + b.id, RichText(Some(rt))))
    case Heading2(rt) => Some(Heading(2, b.id, "#" + b.id, RichText(Some(rt))))
    case Heading3(rt) => Some(Heading(3, b.id, "#" + b.id, RichText(Some(rt))))
    case BulletedListItem(rt) => Some(Li(Bulleted, RichText(Some(rt))))
    case NumberedListItem(rt) => Some(Li(Numbered, RichText(Some(rt))))
    case Quote(rt) => Some(Blockquote(RichText(Some(rt))))
    case CodeBlock(rt, language) => Some(CodeListing(language, PlainText(rt)))
    case Image(source, caption) =>
      var text := FirstPlainText(caption);
      Some(Figure(source.url, text, if text != "" then Some(text) else None))
    case Divider => Some(Hr)
    case Unsupported(_) => None
  }

  /** The heading level of a heading block (1, 2 or 3). */
  function HeadingLevel(k: BlockKind): nat {
    match k
    case Heading1(_) => 1
    case Heading2(_) => 2
    case Heading3(_) => 3
    case _ => 0
  }

  /** Headings are anchors: the element id is the block id and the text links to '#' + id. */
  lemma HeadingAnchor(b: Block)
    requires b.kind.Heading1? || b.kind.Heading2? || b.kind.Heading3?
    ensures var r := RenderBlock(b);
      r.Some? && r.value.Heading? &&
      r.value.level == HeadingLevel(b.kind) && r.value.id == b.id && r.value.href == "#" + b.id &&
      |r.value.children| == |b.kind.richText|
  {
  }

  /** A code block shows the in-order concatenation of its segments' plain text. */
  lemma CodeContent(b: Block, front: seq<RichTextItem>, back: seq<RichTextItem>)
    requires b.kind.CodeBlock? && b.kind.richText == front + back
    ensures RenderBlock(b) == Some(CodeListing(b.kind.language, PlainText(front) + PlainText(back)))
  {
    PlainTextAppend(front, back);
  }

  /**
   * An image shows the external or the uploaded file URL, its caption is the
   * first caption segment (or ''), and a figcaption appears iff the caption
   * is non-empty.
   */
  lemma ImageFigure(b: Block)
    requires b.kind.Image?
    ensures var r := RenderBlock(b);
      r.Some? && r.value.Figure? &&
      (b.kind.source.External? ==> r.value.src == b.kind.source.url) &&
      (b.kind.source.File? ==> r.value.src == b.kind.source.url) &&
      r.value.alt == FirstPlainText(b.kind.caption) &&
      (r.value.figcaption.Some? <==> FirstPlainText(b.kind.caption) != "") &&
      (r.value.figcaption.Some? ==> r.value.figcaption.value == b.kind.caption[0].plainText)
  {
  }
}
