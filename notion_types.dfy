/**
 * The Notion values the blog reads: rich-text segments, content blocks and
 * the blog-post record built from a page.
 */
module NotionTypes {
  import opened Wrappers

  /** The five text annotations the renderer looks at (Notion's `color` is ignored). */
  datatype Annotations = Annotations(
    bold: bool,
    italic: bool,
    strikethrough: bool,
    underline: bool,
    code: bool)

  /** One segment of Notion rich text. */
  datatype RichTextItem = RichTextItem(
    plainText: string,
    annotations: Annotations,
    href: Option<string>)

  /** Where an image block's file lives: `image.type` is 'external' or 'file'. */
  datatype ImageSource = External(url: string) | File(url: string)

  /** The type-specific part of a block, one constructor per `block.type`. */
  datatype BlockKind =
    | Paragraph(richText: seq<RichTextItem>)
    | Heading1(richText: seq<RichTextItem>)
    | Heading2(richText: seq<RichTextItem>)
    | Heading3(richText: seq<RichTextItem>)
    | BulletedListItem(richText: seq<RichTextItem>)
    | NumberedListItem(richText: seq<RichTextItem>)
    | Quote(richText: seq<RichTextItem>)
    | CodeBlock(richText: seq<RichTextItem>, language: string)
    | Image(source: ImageSource, caption: seq<RichTextItem>)
    | Divider
    | Unsupported(typeName: string)

  /**
   * The first segment's plain text, or '' when there is none (an image's
   * caption, a TOC entry's text).
   */
  function FirstPlainText(ts: seq<RichTextItem>): (r: string)
    ensures ts == [] ==> r == ""
    ensures ts != [] ==> r == ts[0].plainText
  {
    if |ts| > 0 then ts[0].plainText else ""
  }

  /** A content block: its id and its typed payload. */
  datatype Block = Block(id: string, kind: BlockKind)

  /** The two list-item types that the renderer groups into lists. */
  datatype ListKind = Bulleted | Numbered

  /** The list kind of a block, when it is a list item. */
  function ListKindOf(b: Block): (r: Option<ListKind>)
    ensures r == Some(Bulleted) <==> b.kind.BulletedListItem?
    ensures r == Some(Numbered) <==> b.kind.NumberedListItem?
  {
    match b.kind
    case BulletedListItem(_) => Some(Bulleted)
    case NumberedListItem(_) => Some(Numbered)
    case _ => None
  }

  /** One entry of a post's table of contents (`TocItem` in src/lib/utils.ts). */
  datatype TocItem = TocItem(id: string, text: string, level: int)

  /**
   * A post as the blog sees it. `category` and `project` are read by the
   * graph view and the post page although the source's `BlogPost`
   * interface does not declare them; they are optional here.
   */
  datatype BlogPost = BlogPost(
    id: string,
    title: string,
    createdAt: string,
    updatedAt: string,
    tags: seq<string>,
    category: Option<string>,
    project: Option<string>)
}
