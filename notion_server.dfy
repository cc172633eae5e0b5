/**
 * The Notion helpers of src/lib/notion-server.ts. The Notion client is not
 * modelled: each call's response (or its failure) is an input, and a
 * paginated listing is the sequence of responses the client would return.
 */
module NotionServer {
  import opened Wrappers
  import opened NotionTypes

  // ---------------------------------------------------------------- ids

  /** `normalizeId`: a 32-character id is cut 8-4-4-4-12 and joined with hyphens. */
  function NormalizeId(id: string): (r: string)
    ensures |id| != 32 ==> r == id
    ensures |id| == 32 ==> |r| == 36 && r[8] == '-' && r[13] == '-' && r[18] == '-' && r[23] == '-'
  {
    if |id| == 32 then id[..8] + "-" + id[8..12] + "-" + id[12..16] + "-" + id[16..20] + "-" + id[20..]
    else id
  }

  /** The UUID shape: 36 characters, hyphens at 8, 13, 18 and 23, the id's characters in order around them. */
  lemma NormalizeIdShape(id: string)
    requires |id| == 32
    ensures var r := NormalizeId(id);
      && |r| == 36
      && r[8] == '-' && r[13] == '-' && r[18] == '-' && r[23] == '-'
      && r[..8] == id[..8] && r[9..13] == id[8..12] && r[14..18] == id[12..16]
      && r[19..23] == id[16..20] && r[24..] == id[20..]
  {
    var r := NormalizeId(id);
    assert r == id[..8] + "-" + id[8..12] + "-" + id[12..16] + "-" + id[16..20] + "-" + id[20..];
  }

  /** The characters of `s` other than hyphens, in order. */
  function RemoveHyphens(s: string): string {
    if s == [] then [] else (if s[0] == '-' then [] else [s[0]]) + RemoveHyphens(s[1..])
  }

  lemma {:induction false} RemoveHyphensAppend(a: string, b: string)
    ensures RemoveHyphens(a + b) == RemoveHyphens(a) + RemoveHyphens(b)
  {
    if a == [] {
      assert a + b == b;
    } else {
      assert (a + b)[1..] == a[1..] + b;
      RemoveHyphensAppend(a[1..], b);
    }
  }

  lemma {:induction false} RemoveHyphensNone(s: string)
    requires '-' !in s
    ensures RemoveHyphens(s) == s
  {
    if s != [] {
      RemoveHyphensNone(s[1..]);
    }
  }

  lemma DropHyphen(a: string, b: string)
    ensures RemoveHyphens(a + "-" + b) == RemoveHyphens(a) + RemoveHyphens(b)
  {
    assert RemoveHyphens("-") == "";
    RemoveHyphensAppend(a, "-");
    RemoveHyphensAppend(a + "-", b);
  }

  /** Deleting the hyphens of a normalized hyphen-free 32-character id gives the id back. */
  lemma NormalizeIdRoundTrip(id: string)
    requires |id| == 32 && '-' !in id
    ensures RemoveHyphens(NormalizeId(id)) == id
  {
    var p1, p2, p3, p4, p5 := id[..8], id[8..12], id[12..16], id[16..20], id[20..];
    assert id == p1 + p2 + p3 + p4 + p5;
    var q4 := p1 + "-" + p2 + "-" + p3 + "-" + p4;
    var q3 := p1 + "-" + p2 + "-" + p3;
    var q2 := p1 + "-" + p2;
    assert NormalizeId(id) == q4 + "-" + p5;
    RemoveHyphensNone(p1);
    RemoveHyphensNone(p2);
    RemoveHyphensNone(p3);
    RemoveHyphensNone(p4);
    RemoveHyphensNone(p5);
    DropHyphen(p1, p2);
    DropHyphen(q2, p3);
    DropHyphen(q3, p4);
    DropHyphen(q4, p5);
  }

  /** Removing the four inserted positions undoes NormalizeId for every 32-character id, hyphens or not. */
  lemma NormalizeIdPositions(id: string)
    requires |id| == 32
    ensures var r := NormalizeId(id); r[..8] + r[9..13] + r[14..18] + r[19..23] + r[24..] == id
  {
    NormalizeIdShape(id);
    assert id == id[..8] + id[8..12] + id[12..16] + id[16..20] + id[20..];
  }

  /** Ids of any other length are kept, so NormalizeId is idempotent. */
  lemma NormalizeIdIdempotent(id: string)
    ensures |id| != 32 ==> NormalizeId(id) == id
    ensures NormalizeId(NormalizeId(id)) == NormalizeId(id)
  {
    if |id| == 32 {
      NormalizeIdShape(id);
    }
  }

  // ---------------------------------------------------------------- pages

  datatype SelectOption = SelectOption(name: string)

  /** The page property values the blog reads, by Notion property type. */
  datatype PropertyValue =
    | TitleProp(title: seq<RichTextItem>)
    | DateProp(date: Option<string>)               // `date?.start`: the date object may be null
    | LastEditedTimeProp(lastEditedTime: string)
    | MultiSelectProp(multiSelect: seq<SelectOption>)
    | OtherProp(typeName: string)

  datatype Page = Page(id: string, properties: map<string, PropertyValue>)

  function Names(options: seq<SelectOption>): (names: seq<string>)
    ensures |names| == |options|
    ensures forall i :: 0 <= i < |options| ==> names[i] == options[i].name
  {
    seq(|options|, i requires 0 <= i < |options| => options[i].name)
  }

  /**
   * `mapPageToBlogPost`: each field falls back to its default when the
   * property is missing or has another type. Category and project are not
   * filled by this function.
   */
  function MapPageToBlogPost(page: Page): (post: BlogPost)
    ensures post.id == NormalizeId(page.id)
    ensures post.title == (
      if "name" in page.properties && page.properties["name"].TitleProp? && page.properties["name"].title != []
      then page.properties["name"].title[0].plainText else "Untitled")
    ensures post.createdAt == (
      if "createdAt" in page.properties && page.properties["createdAt"].DateProp? && page.properties["createdAt"].date.Some?
      then page.properties["createdAt"].date.value else "")
    ensures post.updatedAt == (
      if "updatedAt" in page.properties && page.properties["updatedAt"].LastEditedTimeProp?
      then page.properties["updatedAt"].lastEditedTime else "")
    ensures "tags" in page.properties && page.properties["tags"].MultiSelectProp? ==>
      |post.tags| == |page.properties["tags"].multiSelect| &&
      forall i :: 0 <= i < |post.tags| ==> post.tags[i] == page.properties["tags"].multiSelect[i].name
    ensures !("tags" in page.properties && page.properties["tags"].MultiSelectProp?) ==> post.tags == []
    ensures post.category.None? && post.project.None?
  {
    var props := page.properties;
    var title :=
      if "name" in props && props["name"].TitleProp? then
        (if |props["name"].title| > 0 then props["name"].title[0].plainText else "Untitled")
      else "Untitled";
    var createdAt :=
      if "createdAt" in props && props["createdAt"].DateProp? then props["createdAt"].date.GetOr("") else "";
    var updatedAt :=
      if "updatedAt" in props && props["updatedAt"].LastEditedTimeProp? then props["updatedAt"].lastEditedTime else "";
    var tags :=
      if "tags" in props && props["tags"].MultiSelectProp? then Names(props["tags"].multiSelect) else [];
    BlogPost(NormalizeId(page.id), title, createdAt, updatedAt, tags, None, None)
  }

  /** A page without any of the properties gets every default. */
  lemma MapPageDefaults(id: string)
    ensures MapPageToBlogPost(Page(id, map[])) == BlogPost(NormalizeId(id), "Untitled", "", "", [], None, None)
  {
  }

  /** A query result: a full page object, or a partial one that `isFullPage` rejects. */
  datatype QueryResult = FullPage(page: Page) | PartialPage(id: string)

  function FullPages(rs: seq<QueryResult>): (ps: seq<Page>)
    ensures |ps| <= |rs|
  {
    if rs == [] then [] else (if rs[0].FullPage? then [rs[0].page] else []) + FullPages(rs[1..])
  }

  function MapPosts(ps: seq<Page>): (posts: seq<BlogPost>)
    ensures |posts| == |ps|
    ensures forall i :: 0 <= i < |ps| ==> posts[i] == MapPageToBlogPost(ps[i])
  {
    seq(|ps|, i requires 0 <= i < |ps| => MapPageToBlogPost(ps[i]))
  }

  /**
   * `getDatabasePosts`: the full pages of the query's results, mapped in
   * order; [] when the query throws (`response` is None). The filter on
   * status and the sort by creation date are done by Notion.
   */
  function GetDatabasePosts(response: Option<seq<QueryResult>>): (posts: seq<BlogPost>)
    ensures response.None? ==> posts == []
    ensures response.Some? ==> posts == MapPosts(FullPages(response.value)) && |posts| <= |response.value|
  {
    match response
    case None => []
    case Some(rs) => MapPosts(FullPages(rs))
  }

  /** `getPostById`: undefined when the lookup throws or the page is not a full page. */
  function GetPostById(response: Option<QueryResult>): (post: Option<BlogPost>)
    ensures post.Some? <==> response.Some? && response.value.FullPage?
    ensures post.Some? ==> post.value == MapPageToBlogPost(response.value.page)
  {
    match response
    case Some(FullPage(p)) => Some(MapPageToBlogPost(p))
    case _ => None
  }

  // ---------------------------------------------------------------- blocks

  /** One entry of `blocks.children.list`: a full block, or a partial one without a `type`. */
  datatype ListEntry = FullBlock(block: Block) | PartialBlock(id: string)

  datatype ListResponse = ListResponse(results: seq<ListEntry>, nextCursor: Option<string>, hasMore: bool)

  /** The entries that have a `type`, in order. */
  function FullBlocks(es: seq<ListEntry>): (bs: seq<Block>)
    ensures |bs| <= |es|
  {
    if es == [] then [] else (if es[0].FullBlock? then [es[0].block] else []) + FullBlocks(es[1..])
  }

  /** The full blocks of the responses, concatenated in response order. */
  function AllBlocks(rs: seq<ListResponse>): seq<Block> {
    if rs == [] then [] else AllBlocks(rs[..|rs| - 1]) + FullBlocks(rs[|rs| - 1].results)
  }

  /** The index of the first response that says there is nothing more. */
  function FirstFinal(rs: seq<ListResponse>): (n: Option<nat>)
    ensures n.Some? ==> n.value < |rs| && !rs[n.value].hasMore && forall k :: 0 <= k < n.value ==> rs[k].hasMore
    ensures n.None? ==> forall k :: 0 <= k < |rs| ==> rs[k].hasMore
  {
    if rs == [] then None
    else if !rs[0].hasMore then Some(0)
    else match FirstFinal(rs[1..]) case None => None case Some(k) => Some(k + 1)
  }

  /** What a paginated listing yields: its blocks and the `start_cursor` of each call made. */
  datatype Listing = Listing(blocks: seq<Block>, cursors: seq<Option<string>>)

  /**
   * `getPageBlocks`: calls the listing repeatedly, the i-th call answered
   * by `responses[i]`, passing each response's `next_cursor` to the next
   * call, and stops after the first response whose `has_more` is false.
   * None when the responses run out first (the client call would throw).
   */
  method GetPageBlocks(responses: seq<ListResponse>) returns (r: Option<Listing>)
    ensures r.Some? <==> FirstFinal(responses).Some?
    ensures r.Some? ==>
      var n := FirstFinal(responses).value;
      && r.value.blocks == AllBlocks(responses[..n + 1])
      && |r.value.cursors| == n + 1
      && r.value.cursors[0] == None
      && forall k :: 0 < k <= n ==> r.value.cursors[k] == responses[k - 1].nextCursor
  {
    var blocks: seq<Block> := [];
    var cursor: Option<string> := None;
    var cursors: seq<Option<string>> := [];
    var i := 0;
    while i < |responses|
      invariant 0 <= i <= |responses|
      invariant forall k :: 0 <= k < i ==> responses[k].hasMore
      invariant blocks == AllBlocks(responses[..i])
      invariant |cursors| == i
      invariant i > 0 ==> cursors[0] == None
      invariant forall k :: 0 < k < i ==> cursors[k] == responses[k - 1].nextCursor
      invariant cursor == if i == 0 then None else responses[i - 1].nextCursor
    {
      cursors := cursors + [cursor];
      var response := responses[i];
      assert responses[..i + 1][..i] == responses[..i];
      blocks := blocks + FullBlocks(response.results);
      if !response.hasMore {
        r := Some(Listing(blocks, cursors));
        return;
      }
      cursor := response.nextCursor;
      i := i + 1;
    }
    r := None;
  }

  lemma {:induction false} AllBlocksAppend(a: seq<ListResponse>, b: seq<ListResponse>)
    ensures AllBlocks(a + b) == AllBlocks(a) + AllBlocks(b)
    decreases |b|
  {
    if b == [] {
      assert a + b == a;
    } else {
      var b' := b[..|b| - 1];
      assert (a + b)[..|a + b| - 1] == a + b';
      AllBlocksAppend(a, b');
    }
  }

  /** Responses after the final one are never consulted. */
  lemma ListingIgnoresLaterResponses(rs: seq<ListResponse>, later: seq<ListResponse>)
    requires FirstFinal(rs).Some?
    ensures FirstFinal(rs + later) == FirstFinal(rs)
    ensures var n := FirstFinal(rs).value; (rs + later)[..n + 1] == rs[..n + 1]
  {
    var n := FirstFinal(rs).value;
    assert !(rs + later)[n].hasMore;
    assert forall k :: 0 <= k < n ==> (rs + later)[k] == rs[k];
  }
}
