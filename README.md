# A verified model of the blog's core

This project models the core of a Next.js blog that reads its posts from a
Notion database and keeps comments and page views in a Redis store. The
model covers the following parts:

- **Notion data access** (`notion_server.dfy`): id normalisation, mapping a
  page to a blog post, the database query, fetching one page, and the
  paginated block listing.
- **Post rendering**:
  - rich text and single blocks (`notion_block.dfy`);
  - folding runs of list items into `ul`/`ol` elements
    (`notion_block_renderer.dfy`);
  - extracting the table of contents (`toc_extract.dfy`).
- **Comments**:
  - the per-post comment hash with password checks (`comment_store.dfy`);
  - the HTTP handlers for GET, POST, DELETE and PUT (`comment_route.dfy`);
  - the client form and the per-comment edit/delete controls
    (`comments_ui.dfy`).
- **Page views**: the Redis counter (`view_store.dfy`) and the client rule
  that counts a browser at most once per post (`view_counter.dfy`).
- **Tables of contents**: the two components (`post_toc.dfy`,
  `table_of_contents.dfy`) and the active-heading rule they share
  (`active_heading.dfy`).
- **Navigation**:
  - the knowledge graph builder and its `memo` comparator (`graph_view.dfy`);
  - the pagination links (`pagination.dfy`);
  - the sidebar filter links (`sidebar.dfy`);
  - both of the last two build on an ordered model of `URLSearchParams`
    (`search_params.dfy`).

Most of the form follows the source:

- Code that loops or mutates becomes methods with loop invariants. Examples:
  - `getPageBlocks`
  - `extractTocFromBlocks`
  - the renderer's `forEach`
  - the graph builder's `forEach` passes
  - the TOC scan
  - `createQueryString`
  - `getComments`' sort
- Components with state become classes whose methods are the event
  handlers. Examples: `Renderer`, `CommentStore`, `ViewStore`, `Counter`,
  `PostToc`, `Toc`, `CommentForm`, `CommentItem`.
- Pure helpers become functions.

Each method is tied to a specification function, and lemmas prove what the
source promises about that function.

The outside world enters as parameters:

- Notion responses, and Redis failures (`Fault`, `failing`).
- The fresh comment id (nanoid) and the clock (`Date.now`).
- bcrypt, as an abstract `hash` plus a `matches` relation that accepts a
  password against its own hash.
- Page geometry, as `real`s.
- localStorage, as a set of keys.
- Replies to client requests.

## Model

| member | source | states |
|---|---|---|
| NotionServer.NormalizeId | src/lib/notion-server.ts:19-24 | ids of other lengths are kept; a 32-character id becomes 36 characters with hyphens at 8, 13, 18 and 23 |
| NotionServer.NormalizeIdShape | src/lib/notion-server.ts:19-24 | a 32-character id becomes 36 characters with hyphens at 8, 13, 18 and 23 and the id's characters in order between them |
| NotionServer.NormalizeIdRoundTrip | src/lib/notion-server.ts:19-24 | deleting the hyphens of a normalised hyphen-free 32-character id gives the id back |
| NotionServer.NormalizeIdPositions | src/lib/notion-server.ts:19-24 | dropping the four inserted positions recovers any 32-character id |
| NotionServer.NormalizeIdIdempotent | src/lib/notion-server.ts:19-24 | ids of other lengths are kept; normalising twice equals normalising once |
| NotionServer.MapPageToBlogPost | src/lib/notion-server.ts:26-41 | each field is read from its property when that property exists with the expected type, else takes its default ('Untitled', '', [], …); the id is normalised; tags keep their order |
| NotionServer.MapPageDefaults | src/lib/notion-server.ts:26-41 | a page without properties maps to the all-defaults post |
| NotionServer.GetDatabasePosts | src/lib/notion-server.ts:43-66 | the full pages of the results, mapped in order; [] when the query throws |
| NotionServer.GetPostById | src/lib/notion-server.ts:68-79 | a post exactly when the lookup succeeds with a full page, and then it is that page mapped |
| NotionServer.GetPageBlocks | src/lib/notion-server.ts:82-102 | stops after the first response whose has_more is false; returns the full blocks of the responses up to it; each call's cursor is the previous response's next_cursor |
| NotionServer.ListingIgnoresLaterResponses | src/lib/notion-server.ts:86-99 | responses after the final one never affect the listing |
| NotionServer.AllBlocksAppend | src/lib/notion-server.ts:92-93 | the accumulated blocks of two response sequences concatenate |
| NotionTypes.FirstPlainText | src/lib/utils.ts:26 | the first segment's text, '' without segments |
| NotionTypes.ListKindOf | src/components/features/post/NotionBlockRenderer.tsx:44 | exactly bulleted and numbered items have a list kind |
| NotionBlock.WrapIf | src/components/features/post/NotionBlock.tsx:16-25 | one optional wrapper is added outermost and the content inside is untouched |
| NotionBlock.Annotate | src/components/features/post/NotionBlock.tsx:14-25 | the text sits innermost, with bold, italic, strikethrough, underline and code wrapped around it from the inside out, each present iff its annotation is set |
| NotionBlock.AnnotatePeel | src/components/features/post/NotionBlock.tsx:14-25 | the annotations and the text can be read back from the markup |
| NotionBlock.Segment | src/components/features/post/NotionBlock.tsx:27-35 | a link to the href exactly when the href is truthy, else a span; its content carries the segment's annotations and text |
| NotionBlock.RichText | src/components/features/post/NotionBlock.tsx:7-39 | missing text renders nothing; otherwise one element per segment, in order |
| NotionBlock.PlainTextAppend | src/components/features/post/NotionBlock.tsx:92 | the joined plain text of two segment lists concatenates |
| NotionBlock.PlainTextLength | src/components/features/post/NotionBlock.tsx:92 | the code text is as long as its segments together |
| NotionBlock.RenderBlock | src/components/features/post/NotionBlock.tsx:41-110 | null exactly for unsupported block types |
| NotionBlock.HeadingAnchor | src/components/features/post/NotionBlock.tsx:49-72 | a heading of level 1-3 carries the block id and links to '#'+id around one element per segment |
| NotionBlock.CodeContent | src/components/features/post/NotionBlock.tsx:91-94 | a code block shows its segments' plain text concatenated in order, with its language |
| NotionBlock.ImageFigure | src/components/features/post/NotionBlock.tsx:95-104 | an image shows the external or file URL, its alt text is the first caption segment (or ''), and a figcaption appears iff the caption is non-empty |
| NotionBlockRenderer.TagOf | src/components/features/post/NotionBlockRenderer.tsx:19 | `ol` exactly for numbered lists |
| NotionBlockRenderer.ListStylePeriodic | src/components/features/post/NotionBlockRenderer.tsx:22-29 | the list style repeats every 3 nesting levels and comes from its kind's table |
| NotionBlockRenderer.FlattenAppend | src/components/features/post/NotionBlockRenderer.tsx:31-52 | the blocks of two group sequences concatenate |
| NotionBlockRenderer.Renderer.constructor | src/components/features/post/NotionBlockRenderer.tsx:10-13 | nothing rendered and no run pending, at the given level |
| NotionBlockRenderer.Renderer.FlushList | src/components/features/post/NotionBlockRenderer.tsx:16-41 | a pending run is emitted as one list (tag, style, key 'list-'+first id); afterwards nothing is pending and no block is lost or added |
| NotionBlockRenderer.Renderer.Accept | src/components/features/post/NotionBlockRenderer.tsx:43-54 | a list item extends the run of its kind, opens a run when none is pending, or emits the pending run of the other kind as one list and starts a new run; any other block emits the pending run, if any, and then itself alone; the emitted blocks grow by exactly this block |
| NotionBlockRenderer.RenderBlocks | src/components/features/post/NotionBlockRenderer.tsx:11-59 | the groups flatten back to the input; every list is non-empty and of one kind; no two adjacent lists have the same kind |
| NotionBlockRenderer.GroupingUnique | src/components/features/post/NotionBlockRenderer.tsx:43-56 | only one grouping has those three properties, so RenderBlocks' output is fully determined |
| NotionBlockRenderer.GroupMarkup | src/components/features/post/NotionBlockRenderer.tsx:31-37 | a list group renders as its tag and key around one list item per block |
| Utils.Entry | src/lib/utils.ts:23-40 | a heading's entry carries its id and first segment's text; its level is 2 exactly for heading 3, else 1 |
| Utils.Headings | src/lib/utils.ts:18-42 | keeps only heading blocks and never more blocks than given |
| Utils.HeadingsMembers | src/lib/utils.ts:18-42 | a block is kept iff it is a heading of the input |
| Utils.HeadingsAppend | src/lib/utils.ts:18-42 | the headings of a concatenation are the concatenated headings |
| Utils.HeadingsCount | src/lib/utils.ts:18-42 | there are as many entries as heading blocks |
| Utils.Entries | src/lib/utils.ts:24-40 | one entry per heading, in order |
| Utils.ExtractToc | src/lib/utils.ts:15-45 | the result is the entries of the input's headings in order, at most one per block, each of level 1 or 2 |
| CommentDb.CommentsKey | src/lib/db/comment.ts:18 | the post id is the key's text after its first 9 characters |
| CommentDb.CommentsKeyPrefix | src/lib/db/comment.ts:18 | those 9 characters are `comments:` |
| CommentDb.Public | src/lib/db/comment.ts:28 | the returned comment keeps every field but the password hash |
| CommentDb.CommentsKeyInjective | src/lib/db/comment.ts:18 | different posts use different hashes |
| CommentDb.Check | src/lib/db/comment.ts:52-72 | a missing comment is 404 whatever the password; a configured admin password passes; otherwise the password must match the stored hash, else 401; a pass returns the stored comment |
| CommentDb.OwnPasswordVerifies | src/lib/db/comment.ts:64-71 | the password a comment was created with always verifies it |
| CommentDb.AdminVerifies | src/lib/db/comment.ts:60-62 | a non-empty admin password verifies any existing comment |
| CommentDb.WrongPasswordRejected | src/lib/db/comment.ts:64-69 | a non-admin password rejected by the hash gives 401 'Incorrect password' |
| CommentDb.InsertNewestFirst | src/lib/db/comment.ts:24 | insertion keeps the comments as a multiset plus the new one and keeps the newest-first order |
| CommentDb.NewestFirstSnapshot | src/lib/db/comment.ts:24-28 | every comment of the hash appears once, without its hash, sorted newest first |
| CommentDb.CommentStore.Lookup | src/lib/db/comment.ts:53 | present iff the post's hash holds that id, and then it is the stored comment |
| CommentDb.CommentStore.GetComments | src/lib/db/comment.ts:16-33 | exactly the post's comments, newest first, without hashes; [] for a missing hash or a failed read |
| CommentDb.CommentStore.CreateComment | src/lib/db/comment.ts:35-49 | the post's hash gains exactly the new comment under the fresh id, with the hashed password and the current time; a failed write changes nothing |
| CommentDb.CommentStore.VerifyComment | src/lib/db/comment.ts:52-72 | the verdict is Check applied to the stored comment; a failed read throws |
| CommentDb.CommentStore.DeleteComment | src/lib/db/comment.ts:74-86 | after a pass, exactly that comment is removed (its hash disappears with its last field); a rejection returns its error and status and changes nothing |
| CommentDb.CommentStore.UpdateComment | src/lib/db/comment.ts:88-104 | after a pass, only that comment's content changes; a rejection returns its error and status and changes nothing |
| CommentsRoute.OpResponse | src/app/api/comments/route.ts:51-55 | success is 200 `{success: true}`; a failure passes the store's error and status through |
| CommentsRoute.Get | src/app/api/comments/route.ts:5-20 | 400 without a truthy postId; otherwise 200 with exactly the post's comments newest first, each the stored comment without its hash; [] after a failed read |
| CommentsRoute.Post | src/app/api/comments/route.ts:22-38 | a missing field gives 400 and creates nothing; an unparsable body or failed write gives 500; otherwise 200 and the comment is stored |
| CommentsRoute.Delete | src/app/api/comments/route.ts:40-60 | a missing field gives 400; the store's verdict decides, with 404/401 passed through; a failed read gives 500; only a pass removes the comment |
| CommentsRoute.Put | src/app/api/comments/route.ts:62-82 | as DELETE, with content also required; only a pass changes that comment's content |
| ViewDb.ViewsKey | src/lib/db/view.ts:5 | the key is `pageviews:` followed by the slug |
| ViewDb.ViewsKeyInjective | src/lib/db/view.ts:5-15 | different slugs use different counters |
| ViewDb.CountOf | src/lib/db/view.ts:5-6 | a missing counter reads 0 |
| ViewDb.ViewStore.GetViews | src/lib/db/view.ts:3-11 | the slug's count, 0 when missing or when the read fails |
| ViewDb.ViewStore.IncrementViews | src/lib/db/view.ts:13-21 | returns the old count plus one and stores it; a failure rethrows and changes nothing |
| ViewDb.IncrementIsolated | src/lib/db/view.ts:15 | an increment adds one to its slug and no other slug's count changes |
| ViewDb.IncrementTimesCount | src/lib/db/view.ts:15 | k increments raise a count by exactly k |
| ViewCounter.MarkerKey | src/components/ViewCounter.tsx:30 | the key is `viewed-post-` followed by the slug |
| ViewCounter.AfterReply | src/components/ViewCounter.tsx:19-24 | a reply's views replace the state (undefined when the body has none); a thrown request leaves it |
| ViewCounter.MountStep | src/components/ViewCounter.tsx:27-52 | a counting mount increments iff the marker is absent; afterwards the marker is set iff it was set or the request got a reply |
| ViewCounter.Counter.Mount | src/components/ViewCounter.tsx:15-59 | the increment is issued iff the page counts and the marker is absent; the marker is written only after the increment's reply; otherwise only the read is issued |
| ViewCounter.Counter.constructor | src/components/ViewCounter.tsx:12-13 | `increment` defaults to false and `showIcon` to true; no count has arrived yet |
| ViewCounter.Counter.FetchViews | src/components/ViewCounter.tsx:16-25 | one read; its reply sets the state |
| ViewCounter.Counter.Render | src/components/ViewCounter.tsx:61-70 | the placeholder iff still loading; a render error iff the views are undefined; otherwise the count, with the icon as configured |
| ViewCounter.MarkedNeverIncrements | src/components/ViewCounter.tsx:30-33 | once marked, no later mount increments |
| ViewCounter.IncrementsBounded | src/components/ViewCounter.tsx:27-52 | successive mounts in one browser increment at most once more than they had failed requests |
| ViewCounter.ExactlyOnceWithoutFailures | src/components/ViewCounter.tsx:27-52 | without failed requests, any number of mounts increments exactly once |
| ActiveHeading.AtBottom | src/components/features/post/TableOfContents.tsx:55 | the page is at its bottom iff the viewport's lower edge is within 50 pixels of the body's height |
| ActiveHeading.AtBottomMonotone | src/components/features/post/TableOfContents.tsx:55 | scrolling further down never leaves the bottom zone |
| ActiveHeading.StopIndex | src/components/features/post/TableOfContents.tsx:43-53 | the scan stops at the first present heading below the offset, or at the end |
| ActiveHeading.LastPresent | src/components/features/post/TableOfContents.tsx:44-49 | the last item with an element before a position, with none after it |
| ActiveHeading.Found | src/components/features/post/TableOfContents.tsx:44-45 | an item with the empty id never has an element; any other item has the given geometry |
| ActiveHeading.EmptyIdSkipped | src/components/features/post/TableOfContents.tsx:44-45 | the scan passes over an item with the empty id whatever its geometry |
| ActiveHeading.CandidateReached | src/components/features/post/TableOfContents.tsx:43-53 | the candidate is a reached heading with a non-empty id, the last one found before the stop; '' when there is none |
| ActiveHeading.ScanCandidate | src/components/features/post/TableOfContents.tsx:43-53 | the loop computes exactly the candidate |
| ActiveHeading.Chosen | src/components/features/post/TableOfContents.tsx:55-66 | the chosen id is the current one, the candidate or an item's id; with a non-empty TOC it is empty only when the first item's id is |
| ActiveHeading.BottomPicksLast | src/components/features/post/TableOfContents.tsx:55-59 | at the page bottom the last item is chosen |
| ActiveHeading.CandidateKept | src/components/features/post/TableOfContents.tsx:61-62 | away from the bottom a non-empty candidate is chosen |
| ActiveHeading.FirstAsFallback | src/components/features/post/TableOfContents.tsx:63-65 | with no candidate the first item is chosen |
| ActiveHeading.EmptyTocUnchanged | src/components/features/post/TableOfContents.tsx:55-66 | an empty TOC never changes the active id |
| ActiveHeading.ChosenIsItemOrActive | src/components/features/post/TableOfContents.tsx:37-66 | the chosen id is an item of a non-empty TOC, or the unchanged id of an empty one |
| ActiveHeading.HashTarget | src/components/features/post/TableOfContents.tsx:95 | the hash without its leading '#' |
| PostTableOfContents.PostToc.constructor | src/components/features/post/TableOfContents.tsx:13-14 | this panel starts closed, with no active id and no lock |
| PostTableOfContents.PostToc.HandleResize | src/components/features/post/TableOfContents.tsx:19-27 | open iff the viewport is at least 1280 wide |
| PostTableOfContents.PostToc.FindActiveHeading | src/components/features/post/TableOfContents.tsx:37-66 | nothing changes under the click lock; otherwise the active id becomes the chosen one; a TOC that renders nothing (empty) keeps the active id |
| PostTableOfContents.PostToc.HandleClick | src/components/features/post/TableOfContents.tsx:126-138 | the clicked id becomes active and the lock is held |
| PostTableOfContents.PostToc.HandleHashChange | src/components/features/post/TableOfContents.tsx:93-104 | a non-empty hash becomes active under the lock; an empty one changes nothing |
| PostTableOfContents.PostToc.ReleaseLock | src/components/features/post/TableOfContents.tsx:135-137 | the timer releases the lock and nothing else |
| PostTableOfContents.PostToc.SetOpen | src/components/features/post/TableOfContents.tsx:154-187 | the hide/show buttons set only the open flag |
| PostTableOfContents.ScrollHighlightsOne | src/components/features/post/TableOfContents.tsx:37-66 | a scroll over a rendered TOC with distinct ids and no click lock leaves exactly one item highlighted |
| PostTableOfContents.HighlightUnique | src/components/features/post/TableOfContents.tsx:168-170 | with distinct ids, at most one item is highlighted |
| PostTableOfContents.ClickThenScroll | src/components/features/post/TableOfContents.tsx:126-138 | a scroll while the lock is held keeps the clicked item active |
| TableOfContents.Toc.constructor | src/components/TableOfContents.tsx:13-14 | this panel starts open, with no active id |
| TableOfContents.Toc.FindActiveHeading | src/components/TableOfContents.tsx:18-47 | nothing changes under the click lock; otherwise the active id becomes the chosen one; a TOC that renders nothing (empty) keeps the active id |
| TableOfContents.Toc.HandleClick | src/components/TableOfContents.tsx:110-122 | the clicked id becomes active and the lock is held |
| TableOfContents.Toc.HandleHashChange | src/components/TableOfContents.tsx:76-87 | a non-empty hash becomes active under the lock; an empty one changes nothing |
| TableOfContents.Toc.ReleaseLock | src/components/TableOfContents.tsx:119-121 | the timer releases the lock and nothing else |
| TableOfContents.Toc.SetOpen | src/components/TableOfContents.tsx:138-171 | the hide/show buttons set only the open flag |
| TableOfContents.ScrollHighlightsOne | src/components/TableOfContents.tsx:18-47 | a scroll over a rendered TOC with distinct ids and no click lock leaves exactly one item highlighted |
| TableOfContents.HighlightUnique | src/components/TableOfContents.tsx:154 | with distinct ids, at most one item is highlighted |
| TableOfContents.ClickThenScroll | src/components/TableOfContents.tsx:110-122 | a scroll while the lock is held keeps the clicked item active |
| GraphView.FirstAppearance | src/components/features/blog/GraphView.tsx:69 | `Array.from(new Set(...filter(Boolean)))` keeps at most one value per input |
| GraphView.Categories | src/components/features/blog/GraphView.tsx:69 | the categories have no repeats, and a value is one iff some post has it as a truthy category |
| GraphView.Projects | src/components/features/blog/GraphView.tsx:75-80 | the projects have no repeats, and a value is one iff some post has it as a truthy project |
| GraphView.FirstAppearanceDistinct | src/components/features/blog/GraphView.tsx:69-80 | the collected categories and projects have no repeats |
| GraphView.FirstAppearanceMembers | src/components/features/blog/GraphView.tsx:69-80 | a value is collected iff some post has it as a truthy value |
| GraphView.FirstAppearancePrefix | src/components/features/blog/GraphView.tsx:69-80 | later posts never reorder values already collected |
| GraphView.ColorMap | src/components/features/blog/GraphView.tsx:70-73 | exactly the categories have colors |
| GraphView.ColorMapAt | src/components/features/blog/GraphView.tsx:71-73 | category i gets palette color i mod 12 |
| GraphView.CategoryColorMap | src/components/features/blog/GraphView.tsx:70-73 | the loop builds exactly ColorMap |
| GraphView.CollectProjects | src/components/features/blog/GraphView.tsx:75-80 | the projects, each once, in first-appearance order |
| GraphView.ProjectNodes | src/components/features/blog/GraphView.tsx:82-90 | one node per project, in order |
| GraphView.PostNodes | src/components/features/blog/GraphView.tsx:92-100 | one node per post, in order |
| GraphView.ProjectLinks | src/components/features/blog/GraphView.tsx:102-108 | one project link per post with a project |
| GraphView.ProjectLinksEnds | src/components/features/blog/GraphView.tsx:102-108 | every project link runs from a post's project node to that post |
| GraphView.Group | src/components/features/blog/GraphView.tsx:111-117 | a category's group holds only posts of that category |
| GraphView.GroupNonEmpty | src/components/features/blog/GraphView.tsx:111-127 | a category that occurs has a non-empty group and contributes one link fewer than its posts |
| GraphView.GroupByCategory | src/components/features/blog/GraphView.tsx:111-117 | throws iff some post's category names a member inherited from `Object.prototype`; otherwise the groups exist exactly for the categories, in first-insertion order, and hold each category's posts in input order |
| GraphView.Chain | src/components/features/blog/GraphView.tsx:120-126 | k posts give k-1 transparent links, the i-th from post i to post i+1 |
| GraphView.ChainGroup | src/components/features/blog/GraphView.tsx:120-126 | the loop builds exactly the chain |
| GraphView.PushProjectNodes | src/components/features/blog/GraphView.tsx:82-90 | the loop builds exactly the project nodes |
| GraphView.PushPostNodes | src/components/features/blog/GraphView.tsx:92-109 | the loop appends the post nodes and builds exactly the project links |
| GraphView.CategoryChains | src/components/features/blog/GraphView.tsx:119-127 | the loop builds the groups' chains in key order |
| GraphView.BuildGraph | src/components/features/blog/GraphView.tsx:63-130 | empty for no posts; throws iff a category names an inherited `Object.prototype` member; otherwise the category colors, project nodes before post nodes, and project links before the category chains |
| GraphView.NodeLayout | src/components/features/blog/GraphView.tsx:82-100 | project nodes come first with ids 'proj-'+name; each post then has a node with its own id |
| GraphView.PostNodeColor | src/components/features/blog/GraphView.tsx:98 | a post with a category takes its category's palette color; a post without one is grey (#888 dark, #999 light) |
| GraphView.SameProps | src/components/features/blog/GraphView.tsx:179-191 | skips the rebuild iff the lengths, the first ids and the heights agree, treating a missing list as [] |
| GraphView.SamePropsEquivalence | src/components/features/blog/GraphView.tsx:179-191 | unchanged props never rebuild, and the comparator is symmetric |
| GraphView.SamePropsMissesLaterChanges | src/components/features/blog/GraphView.tsx:179-191 | a change in any post but the first keeps the old graph although the categories differ |
| SearchParams.Get | src/components/Pagination.tsx:18 | reading a key of the copied query, as the lemmas read `page` back: absent iff no pair has the key; otherwise the value of the first pair with it |
| SearchParams.DropKey | src/components/Pagination.tsx:19 | removes every pair of the key and leaves other keys' pairs in order |
| SearchParams.DropKeyAppend | src/components/Pagination.tsx:19 | the removal splits over concatenation, so it keeps the order of what remains |
| SearchParams.DropKeySingle | src/components/Pagination.tsx:19 | a single pair is kept iff its key differs |
| SearchParams.DropKeyAbsent | src/components/Pagination.tsx:19 | a list without the key is left as it is |
| SearchParams.Set | src/components/Pagination.tsx:19 | the new pair is present, every pair of the key carries the new value, and at most one pair is added |
| SearchParams.SetReplacesFirst | src/components/Pagination.tsx:19 | with a pair for the key, the first one is rewritten in place and the later ones are dropped |
| SearchParams.SetProperties | src/components/Pagination.tsx:19 | after `set`, the key has exactly one pair with the new value and no other key's pairs change |
| SearchParams.SetAbsentAppends | src/components/Sidebar.tsx:25 | setting an absent key appends it |
| SearchParams.Serialize | src/components/Pagination.tsx:20 | empty exactly for no parameters |
| Pagination.NatRoundTrip | src/components/Pagination.tsx:19 | a page numeral reads back as its number |
| Pagination.IntRoundTrip | src/components/Pagination.tsx:19 | the page number written into a link (negative included) reads back exactly |
| Pagination.CreatePageURL | src/components/Pagination.tsx:17-21 | every page link is '/?' followed by a non-empty query |
| Pagination.CreatePageURLQuery | src/components/Pagination.tsx:17-21 | the link's query keeps every other parameter and has exactly one `page`, holding the given page |
| Pagination.Render | src/components/Pagination.tsx:23-47 | nothing iff at most one page; otherwise the arrows (disabled at the ends) and pages 1..totalPages linked in order |
| Pagination.ActiveLink | src/components/Pagination.tsx:36-37 | the page links ascend by one, and exactly the current page is active |
| Sidebar.TruthyPairs | src/components/Sidebar.tsx:23-27 | at most one pair per entry, and no pair with an empty value |
| Sidebar.TruthyPairsMembers | src/components/Sidebar.tsx:23-27 | a pair enters the query iff its value is truthy |
| Sidebar.TruthyPairsKeys | src/components/Sidebar.tsx:23-27 | no key enters the query that the record lacks |
| Sidebar.QueryHref | src/components/Sidebar.tsx:28-29 | '/' for an empty query, else '/?' and the query |
| Sidebar.CreateQueryString | src/components/Sidebar.tsx:21-30 | the loop's `set` calls give exactly the truthy entries in order |
| Sidebar.CategorySection | src/components/Sidebar.tsx:40-69 | "All" keeps the project, drops the category and is highlighted without a category; one link per category, carrying it and highlighted iff current |
| Sidebar.ProjectSection | src/components/Sidebar.tsx:70-99 | "All" keeps the category, drops the project and is highlighted without a project; one link per project, carrying it and highlighted iff current |
| Sidebar.Render | src/components/Sidebar.tsx:11-99 | without a data-source id nothing is shown; a section appears iff its list is non-empty; its "All" link keeps the other filter and is highlighted without a current value; one link per value, carrying it with the other filter, highlighted iff current |
| Sidebar.CategoryLinkQuery | src/components/Sidebar.tsx:56 | a category link's query has that category and keeps exactly the current project |
| Sidebar.AllCategoriesQuery | src/components/Sidebar.tsx:45 | "All" has no category and keeps exactly the current project |
| CommentsUi.IsBlank | src/components/features/post/Comments.tsx:63-65 | `!s.trim()` holds iff every character is whitespace |
| CommentsUi.SubmitErrors | src/components/features/post/Comments.tsx:62-65 | one error per blank field (after trim), and only those, with its message |
| CommentsUi.CommentForm.constructor | src/components/features/post/Comments.tsx:19-22 | no comments, loading, no form message and no field errors |
| CommentsUi.CommentForm.FetchComments | src/components/features/post/Comments.tsx:24-35 | a reply replaces the list, a failure keeps it; loading ends either way |
| CommentsUi.CommentForm.HandleInputChange | src/components/features/post/Comments.tsx:41-50 | typing removes that field's error and no other |
| CommentsUi.CommentForm.HandleSubmit | src/components/features/post/Comments.tsx:52-92 | blank fields are reported and nothing is sent; otherwise one request is sent; success shows the created message and refetches; a failure shows its message |
| CommentsUi.ErrorMessageFor | src/components/features/post/Comments.tsx:170-174 | the two store codes map to their messages, anything else to the generic one |
| CommentsUi.RejectionMessages | src/components/features/post/Comments.tsx:170-174 | the store's 401 and 404 rejections reach the reader as the password-mismatch and not-found messages |
| CommentsUi.ModeThenCancel | src/components/features/post/Comments.tsx:240-323 | opening either mode from the plain view and cancelling it shows the edit and delete buttons again, with the content unchanged |
| CommentsUi.CommentItem.constructor | src/components/features/post/Comments.tsx:162-166 | in neither mode, editing the comment's own content, with no password and no error |
| CommentsUi.CommentItem.StartEdit | src/components/features/post/Comments.tsx:243-248 | enters edit mode, leaves delete mode, clears the password and the error; the buttons are hidden |
| CommentsUi.CommentItem.StartDelete | src/components/features/post/Comments.tsx:254-259 | enters delete mode, leaves edit mode, clears the password and the error; the buttons are hidden |
| CommentsUi.CommentItem.CancelEdit | src/components/features/post/Comments.tsx:294 | leaves edit mode only; outside delete mode the buttons show again |
| CommentsUi.CommentItem.CancelDelete | src/components/features/post/Comments.tsx:323 | leaves delete mode only; outside edit mode the buttons show again |
| CommentsUi.CommentItem.SetPassword | src/components/features/post/Comments.tsx:282-285 | typing a password clears the error |
| CommentsUi.CommentItem.SetEditContent | src/components/features/post/Comments.tsx:273 | typing changes only the edited content |
| CommentsUi.CommentItem.HandleDelete | src/components/features/post/Comments.tsx:176-200 | an empty password is refused without a request; success refetches; a failure shows the mapped or the generic message |
| CommentsUi.CommentItem.HandleUpdate | src/components/features/post/Comments.tsx:202-232 | blank content is refused before the password is checked; success leaves edit mode, clears the password and refetches; a failure stays in edit mode with its message |

## Left out

- The Notion SDK, Redis and `fetch` are not modelled as services. Their responses and failures are parameters. Retries, latency and concurrency between requests are not modelled.
- The Notion query's `status` filter and `createdAt` sort are done by Notion and are not modelled. `getDatabaseProperties`, which lists the sidebar's values, is not part of this model; its lists are a parameter.
- bcrypt is abstract: its salt cost (10) and its actual hashing are not modelled. Only "a password matches its own hash" is assumed, as a requirement on the store's construction.
- nanoid and `Date.now` are parameters. The uniqueness of fresh ids is not modelled, so a colliding id overwrites like `hset` does.
- CommentDb.NewestFirstSnapshot: the order of comments with equal `createdAt` is not fixed. Array `sort` is stable over `Object.values` order, but that order is Redis's field order, and Redis is not modelled.
- Object key order: JavaScript lists integer-like keys first in `Object.values`. The model keeps plain insertion order for the graph's category groups and for the record entries that `createQueryString` iterates.
- Only string-valued JSON fields are modelled in the route handlers, where a field is present iff it is truthy. Non-string JSON values (numbers, objects) are not modelled.
- The view API route (`src/app/api/view/route.ts`) is not part of this model. The client sees its replies only as "views present", "views absent" or "failed".
- ViewCounter.Counter.Mount: this models the code as written. A reply with an HTTP error status still sets the marker, because the client never checks `res.ok`.
- GraphView.CategoryColorMap: a category named `__proto__` gets a color in the model, while the source's assignment to it is ignored. No graph is ever built with such a category, because GraphView.GroupByCategory then throws and so does GraphView.BuildGraph.
- Pagination.Render: page numbers are integers. A `NaN` or fractional `totalPages`/`currentPage`, which the props' `number` type allows, is not modelled.
- `URLSearchParams` percent-encoding is not modelled: `toString` writes keys and values as they are.
- Strings are sequences of code points, not UTF-16 units. `trim` is modelled by its explicit whitespace set.
- Error logging (`console.error` in the data access, the route handlers, the view counter and the comment components, and the `console.warn` for an unsupported block type) is not modelled; only the value returned or the state set after the error is.
- The DOM, JSX, CSS classes, the `CodeBlock` component, timers and scroll-into-view are not modelled. Lock release and the message timeout are separate handler calls.
- Geometry is modelled as `real` numbers, not floating point.
- The force-graph layout, canvas drawing and the graph's click navigation are not modelled.
- React state batching and re-rendering are not modelled: each handler updates its object's fields in sequence. `onRefresh`/`fetchComments` after a handler is reported as `Effect.refresh`, not performed.
- Nested block children: `NotionBlockRenderer` receives `level`, but the model renders one level of siblings. The renderer as given does not descend into children.
- The form's `reset()` and the 3-second message timeout are not modelled.
