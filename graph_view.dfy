/**
 * The graph builder of src/components/features/blog/GraphView.tsx: project
 * and post nodes, project-to-post links and one chain of links per
 * category, plus the `memo` comparator deciding when the graph is rebuilt.
 *
 * `dark` stands for `resolvedTheme === 'dark'`. The force layout, the
 * canvas and the click navigation are not part of this model.
 */
module GraphView {
  import opened Wrappers
  import opened NotionTypes

  const CategoryColors: seq<string> := [
    "#FF6B6B", "#4ECDC4", "#45B7D1", "#96CEB4", "#FFEEAD", "#D4A5A5",
    "#9B59B6", "#3498DB", "#E67E22", "#2ECC71", "#F1C40F", "#E74C3C"]

  datatype NodeType = PostNode | ProjectNode

  datatype GraphNode = GraphNode(
    id: string,
    name: string,
    val: int,
    color: string,
    nodeType: NodeType,
    category: Option<string>)

  datatype GraphLink = GraphLink(source: string, target: string, color: string)

  /** The `useMemo` result: nodes, links and the category legend's colors. */
  datatype Graph = Graph(nodes: seq<GraphNode>, links: seq<GraphLink>, colors: map<string, string>)

  /**
   * The truthy values of `vals`, each once, in order of first appearance
   * (a JavaScript `Set` filled in order).
   */
  function FirstAppearance(vals: seq<Option<string>>): (r: seq<string>)
    ensures |r| <= |vals|
  {
    if vals == [] then []
    else
      var prev := FirstAppearance(vals[..|vals| - 1]);
      var v := vals[|vals| - 1];
      if Truthy(v) && v.value !in prev then prev + [v.value] else prev
  }

  ghost predicate Distinct(xs: seq<string>) {
    forall i, j :: 0 <= i < j < |xs| ==> xs[i] != xs[j]
  }

  lemma {:induction false} FirstAppearanceDistinct(vals: seq<Option<string>>)
    ensures Distinct(FirstAppearance(vals))
  {
    if vals != [] {
      FirstAppearanceDistinct(vals[..|vals| - 1]);
    }
  }

  /** Exactly the truthy values occur, none of them lost. */
  lemma {:induction false} FirstAppearanceMembers(vals: seq<Option<string>>, x: string)
    ensures x in FirstAppearance(vals) <==> exists i :: 0 <= i < |vals| && Truthy(vals[i]) && vals[i].value == x
  {
    if vals != [] {
      var front := vals[..|vals| - 1];
      FirstAppearanceMembers(front, x);
      if exists i :: 0 <= i < |front| && Truthy(front[i]) && front[i].value == x {
        var i :| 0 <= i < |front| && Truthy(front[i]) && front[i].value == x;
        assert vals[i] == front[i];
      }
      if exists i :: 0 <= i < |vals| && Truthy(vals[i]) && vals[i].value == x {
        var i :| 0 <= i < |vals| && Truthy(vals[i]) && vals[i].value == x;
        if i < |front| {
          assert front[i] == vals[i];
        }
      }
    }
  }

  /** Later values never reorder earlier ones: the result for a prefix is a prefix of the result. */
  lemma {:induction false} FirstAppearancePrefix(vals: seq<Option<string>>, n: nat)
    requires n <= |vals|
    ensures var r := FirstAppearance(vals); var p := FirstAppearance(vals[..n]);
      |p| <= |r| && r[..|p|] == p
    decreases |vals| - n
  {
    if n < |vals| {
      FirstAppearancePrefix(vals, n + 1);
      assert vals[..n + 1][..n] == vals[..n];
    } else {
      assert vals[..n] == vals;
    }
  }

  function CategoryValues(posts: seq<BlogPost>): (vs: seq<Option<string>>)
    ensures |vs| == |posts| && forall i :: 0 <= i < |posts| ==> vs[i] == posts[i].category
  {
    seq(|posts|, i requires 0 <= i < |posts| => posts[i].category)
  }

  function ProjectValues(posts: seq<BlogPost>): (vs: seq<Option<string>>)
    ensures |vs| == |posts| && forall i :: 0 <= i < |posts| ==> vs[i] == posts[i].project
  {
    seq(|posts|, i requires 0 <= i < |posts| => posts[i].project)
  }

  /** The distinct non-empty categories, in first-appearance order. */
  function Categories(posts: seq<BlogPost>): (cats: seq<string>)
    ensures Distinct(cats)
    ensures forall c :: c in cats <==>
      exists i :: 0 <= i < |posts| && Truthy(posts[i].category) && posts[i].category.value == c
  {
    var vals := CategoryValues(posts);
    FirstAppearanceDistinct(vals);
    assert forall c :: c in FirstAppearance(vals) <==>
        exists i :: 0 <= i < |posts| && Truthy(posts[i].category) && posts[i].category.value == c by {
      forall c
        ensures c in FirstAppearance(vals) <==>
          exists i :: 0 <= i < |posts| && Truthy(posts[i].category) && posts[i].category.value == c
      {
        FirstAppearanceMembers(vals, c);
      }
    }
    FirstAppearance(vals)
  }

  /** The distinct non-empty projects, in first-appearance order. */
  function Projects(posts: seq<BlogPost>): (projects: seq<string>)
    ensures Distinct(projects)
    ensures forall c :: c in projects <==>
      exists i :: 0 <= i < |posts| && Truthy(posts[i].project) && posts[i].project.value == c
  {
    var vals := ProjectValues(posts);
    FirstAppearanceDistinct(vals);
    assert forall c :: c in FirstAppearance(vals) <==>
        exists i :: 0 <= i < |posts| && Truthy(posts[i].project) && posts[i].project.value == c by {
      forall c
        ensures c in FirstAppearance(vals) <==>
          exists i :: 0 <= i < |posts| && Truthy(posts[i].project) && posts[i].project.value == c
      {
        FirstAppearanceMembers(vals, c);
      }
    }
    FirstAppearance(vals)
  }

  /** Category i gets color i modulo the palette. */
  function ColorMap(cats: seq<string>): (m: map<string, string>)
    ensures m.Keys == set c | c in cats
  {
    if cats == [] then map[]
    else ColorMap(cats[..|cats| - 1])[cats[|cats| - 1] := CategoryColors[(|cats| - 1) % 12]]
  }

  lemma {:induction false} ColorMapAt(cats: seq<string>, i: nat)
    requires Distinct(cats) && i < |cats|
    ensures cats[i] in ColorMap(cats) && ColorMap(cats)[cats[i]] == CategoryColors[i % 12]
  {
    if i < |cats| - 1 {
      var front := cats[..|cats| - 1];
      assert front[i] == cats[i];
      ColorMapAt(front, i);
    }
  }

  function ProjectNodeOf(project: string, dark: bool): GraphNode {
    GraphNode("proj-" + project, project, 3, if dark then "#444" else "#ccc", ProjectNode, None)
  }

  function PostNodeOf(post: BlogPost, colors: map<string, string>, dark: bool): GraphNode
    requires Truthy(post.category) ==> post.category.value in colors
  {
    GraphNode(post.id, post.title, 5,
              if Truthy(post.category) then colors[post.category.value] else if dark then "#888" else "#999",
              PostNode, post.category)
  }

  function ProjectNodes(projects: seq<string>, dark: bool): (ns: seq<GraphNode>)
    ensures |ns| == |projects|
    ensures forall i :: 0 <= i < |projects| ==> ns[i] == ProjectNodeOf(projects[i], dark)
  {
    seq(|projects|, i requires 0 <= i < |projects| => ProjectNodeOf(projects[i], dark))
  }

  ghost predicate ColorsCover(posts: seq<BlogPost>, colors: map<string, string>) {
    forall i :: 0 <= i < |posts| && Truthy(posts[i].category) ==> posts[i].category.value in colors
  }

  function PostNodes(posts: seq<BlogPost>, colors: map<string, string>, dark: bool): (ns: seq<GraphNode>)
    requires ColorsCover(posts, colors)
    ensures |ns| == |posts|
    ensures forall i :: 0 <= i < |posts| ==> ns[i] == PostNodeOf(posts[i], colors, dark)
  {
    seq(|posts|, i requires 0 <= i < |posts| => PostNodeOf(posts[i], colors, dark))
  }

  function ProjectLinkOf(post: BlogPost, dark: bool): GraphLink
    requires post.project.Some?
  {
    GraphLink("proj-" + post.project.value, post.id, if dark then "rgba(255,255,255,0.1)" else "rgba(0,0,0,0.1)")
  }

  /** One link per post that has a project, from its project's node to the post. */
  function ProjectLinks(posts: seq<BlogPost>, dark: bool): (links: seq<GraphLink>)
    ensures |links| == CountWithProject(posts)
  {
    if posts == [] then []
    else
      var last := posts[|posts| - 1];
      ProjectLinks(posts[..|posts| - 1], dark) + (if Truthy(last.project) then [ProjectLinkOf(last, dark)] else [])
  }

  /** The number of posts that have a project. */
  function CountWithProject(posts: seq<BlogPost>): nat {
    if posts == [] then 0
    else CountWithProject(posts[..|posts| - 1]) + (if Truthy(posts[|posts| - 1].project) then 1 else 0)
  }

  /** Every project link starts at an existing project node and ends at a post. */
  lemma {:induction false} ProjectLinksEnds(posts: seq<BlogPost>, dark: bool, k: nat)
    requires k < |ProjectLinks(posts, dark)|
    ensures exists i :: 0 <= i < |posts| && Truthy(posts[i].project) && ProjectLinks(posts, dark)[k] == ProjectLinkOf(posts[i], dark)
  {
    var front := posts[..|posts| - 1];
    var last := posts[|posts| - 1];
    if k < |ProjectLinks(front, dark)| {
      ProjectLinksEnds(front, dark, k);
      var i :| 0 <= i < |front| && Truthy(front[i].project) && ProjectLinks(front, dark)[k] == ProjectLinkOf(front[i], dark);
      assert posts[i] == front[i];
    } else {
      assert ProjectLinks(posts, dark)[k] == ProjectLinkOf(posts[|posts| - 1], dark);
    }
  }

  /** The posts of one category, in input order (`categoryGroups[cat]`). */
  function Group(posts: seq<BlogPost>, cat: string): (g: seq<BlogPost>)
    ensures |g| <= |posts|
    ensures forall p :: p in g ==> p in posts && p.category == Some(cat)
  {
    if posts == [] then []
    else
      var last := posts[|posts| - 1];
      Group(posts[..|posts| - 1], cat) + (if Truthy(last.category) && last.category.value == cat then [last] else [])
  }

  /** Links between consecutive posts of a group: k posts give k - 1 links. */
  function Chain(group: seq<BlogPost>): (ls: seq<GraphLink>)
    ensures |group| <= 1 ==> ls == []
    ensures |group| > 1 ==> |ls| == |group| - 1
    ensures forall i :: 0 <= i < |ls| ==> ls[i] == GraphLink(group[i].id, group[i + 1].id, "rgba(0,0,0,0)")
  {
    if |group| <= 1 then []
    else seq(|group| - 1, i requires 0 <= i < |group| - 1 => GraphLink(group[i].id, group[i + 1].id, "rgba(0,0,0,0)"))
  }

  /** The chains of the categories `cats`, one after another. */
  function ChainLinks(posts: seq<BlogPost>, cats: seq<string>): seq<GraphLink> {
    if cats == [] then []
    else ChainLinks(posts, cats[..|cats| - 1]) + Chain(Group(posts, cats[|cats| - 1]))
  }

  /** A category that occurs has a non-empty group, so it contributes exactly |group| - 1 links. */
  lemma {:induction false} GroupNonEmpty(posts: seq<BlogPost>, cat: string)
    requires cat in Categories(posts)
    ensures |Group(posts, cat)| >= 1
    ensures |Chain(Group(posts, cat))| == |Group(posts, cat)| - 1
  {
    FirstAppearanceMembers(CategoryValues(posts), cat);
    var i :| 0 <= i < |posts| && Truthy(CategoryValues(posts)[i]) && CategoryValues(posts)[i].value == cat;
    GroupContains(posts, cat, i);
  }

  lemma {:induction false} GroupContains(posts: seq<BlogPost>, cat: string, i: nat)
    requires i < |posts| && posts[i].category == Some(cat) && cat != ""
    ensures posts[i] in Group(posts, cat)
  {
    if i < |posts| - 1 {
      var front := posts[..|posts| - 1];
      assert front[i] == posts[i];
      GroupContains(front, cat, i);
    }
  }

  lemma ChainSnoc(group: seq<BlogPost>, i: nat)
    requires i + 1 < |group|
    ensures Chain(group[..i + 2]) == Chain(group[..i + 1]) + [GraphLink(group[i].id, group[i + 1].id, "rgba(0,0,0,0)")]
  {
    var a := Chain(group[..i + 2]);
    var b := Chain(group[..i + 1]) + [GraphLink(group[i].id, group[i + 1].id, "rgba(0,0,0,0)")];
    assert |a| == |b|;
    forall j | 0 <= j < |a| ensures a[j] == b[j] {
      assert group[..i + 2][j] == group[j] && group[..i + 2][j + 1] == group[j + 1];
      if j < i {
        assert group[..i + 1][j] == group[j] && group[..i + 1][j + 1] == group[j + 1];
      }
    }
  }

  /** Every post with a category finds its color. */
  lemma CoverAll(posts: seq<BlogPost>, colors: map<string, string>)
    requires colors == ColorMap(Categories(posts))
    ensures ColorsCover(posts, colors)
  {
    forall i | 0 <= i < |posts| && Truthy(posts[i].category)
      ensures posts[i].category.value in colors
    {
      FirstAppearanceMembers(CategoryValues(posts), posts[i].category.value);
    }
  }

  lemma GroupSnoc(posts: seq<BlogPost>, i: nat, cat: string)
    requires i < |posts|
    ensures Group(posts[..i + 1], cat) ==
      Group(posts[..i], cat) + (if Truthy(posts[i].category) && posts[i].category.value == cat then [posts[i]] else [])
  {
    assert posts[..i + 1][..i] == posts[..i];
  }

  lemma ChainLinksSnoc(posts: seq<BlogPost>, cats: seq<string>, k: nat)
    requires k < |cats|
    ensures ChainLinks(posts, cats[..k + 1]) == ChainLinks(posts, cats[..k]) + Chain(Group(posts, cats[k]))
  {
    assert cats[..k + 1][..k] == cats[..k];
  }

  /** A category not seen yet has no posts so far. */
  lemma GroupAbsent(posts: seq<BlogPost>, cat: string, seen: seq<string>)
    requires seen == FirstAppearance(CategoryValues(posts)) && cat !in seen && cat != ""
    ensures Group(posts, cat) == []
  {
    if Group(posts, cat) != [] {
      var p := Group(posts, cat)[0];
      assert p in Group(posts, cat);
      var i :| 0 <= i < |posts| && posts[i] == p;
      assert Truthy(CategoryValues(posts)[i]) && CategoryValues(posts)[i].value == cat;
      FirstAppearanceMembers(CategoryValues(posts), cat);
    }
  }

  /** The graph of no posts is empty. */
  const EmptyGraph := Graph([], [], map[])

  /** `categories.forEach((cat, index) => ...)`: each category's palette color. */
  method CategoryColorMap(categories: seq<string>) returns (colors: map<string, string>)
    ensures colors == ColorMap(categories)
  {
    colors := map[];
    for index := 0 to |categories|
      invariant colors == ColorMap(categories[..index])
    {
      assert categories[..index + 1][..index] == categories[..index];
      colors := colors[categories[index] := CategoryColors[index % |CategoryColors|]];
    }
    assert categories[..|categories|] == categories;
  }

  /** The `projects` set, filled post by post. */
  method CollectProjects(posts: seq<BlogPost>) returns (projects: seq<string>)
    ensures projects == Projects(posts)
  {
    projects := [];
    for i := 0 to |posts|
      invariant projects == FirstAppearance(ProjectValues(posts)[..i])
    {
      assert ProjectValues(posts)[..i + 1][..i] == ProjectValues(posts)[..i];
      if posts[i].project.Some? && posts[i].project.value != "" && posts[i].project.value !in projects {
        projects := projects + [posts[i].project.value];
      }
    }
    assert ProjectValues(posts)[..|posts|] == ProjectValues(posts);
  }

  /**
   * The members a plain object literal inherits from `Object.prototype`.
   * Reading one of them from `{}` gives a function (or, for `__proto__`,
   * the prototype object itself), which is truthy and has no `push`.
   */
  const InheritedKeys: set<string> := {
    "constructor", "hasOwnProperty", "isPrototypeOf", "propertyIsEnumerable",
    "toLocaleString", "toString", "valueOf", "__proto__",
    "__defineGetter__", "__defineSetter__", "__lookupGetter__", "__lookupSetter__"}

  /** A post whose category names an inherited member of `categoryGroups`. */
  predicate InheritedCategory(p: BlogPost) {
    Truthy(p.category) && p.category.value in InheritedKeys
  }

  /** Some post makes `categoryGroups[post.category].push(post)` throw. */
  predicate GroupingThrows(posts: seq<BlogPost>) {
    exists i :: 0 <= i < |posts| && InheritedCategory(posts[i])
  }

  /**
   * `categoryGroups`: the posts of each category, with the order in which
   * its keys were first inserted. A category that names an inherited
   * member finds that member truthy, so no array is created and the
   * `push` throws (`ok` is false).
   */
  method GroupByCategory(posts: seq<BlogPost>) returns (ok: bool, groups: map<string, seq<BlogPost>>, order: seq<string>)
    ensures ok <==> !GroupingThrows(posts)
    ensures ok ==> order == Categories(posts)
    ensures ok ==> forall c :: c in groups <==> c in order
    ensures ok ==> forall c :: c in groups ==> groups[c] == Group(posts, c)
  {
    groups := map[];
    order := [];
    for i := 0 to |posts|
      invariant forall j :: 0 <= j < i ==> !InheritedCategory(posts[j])
      invariant order == FirstAppearance(CategoryValues(posts)[..i])
      invariant forall c :: c in groups <==> c in order
      invariant forall c :: c in groups ==> groups[c] == Group(posts[..i], c)
    {
      assert CategoryValues(posts)[..i + 1][..i] == CategoryValues(posts)[..i];
      var post := posts[i];
      ghost var before := groups;
      if post.category.Some? && post.category.value != "" {
        var cat := post.category.value;
        if cat in InheritedKeys {
          return false, groups, order;
        }
        if cat !in groups {
          assert CategoryValues(posts)[..i] == CategoryValues(posts[..i]);
          GroupAbsent(posts[..i], cat, order);
          groups := groups[cat := []];
          order := order + [cat];
        }
        groups := groups[cat := groups[cat] + [post]];
      }
      forall c | c in groups
        ensures groups[c] == Group(posts[..i + 1], c)
      {
        GroupSnoc(posts, i, c);
      }
    }
    ok := true;
    assert posts[..|posts|] == posts;
    assert CategoryValues(posts)[..|posts|] == CategoryValues(posts);
  }

  /** The `for` loop over one group: a link from each post to the next. */
  method ChainGroup(group: seq<BlogPost>) returns (chain: seq<GraphLink>)
    ensures chain == Chain(group)
  {
    chain := [];
    if |group| == 0 {
      return;
    }
    var i := 0;
    while i < |group| - 1
      invariant 0 <= i < |group|
      invariant chain == Chain(group[..i + 1])
    {
      ChainSnoc(group, i);
      chain := chain + [GraphLink(group[i].id, group[i + 1].id, "rgba(0,0,0,0)")];
      i := i + 1;
    }
    assert group[..i + 1] == group;
  }

  /** `projects.forEach`: one node per project. */
  method PushProjectNodes(projects: seq<string>, dark: bool) returns (nodes: seq<GraphNode>)
    ensures nodes == ProjectNodes(projects, dark)
  {
    nodes := [];
    for i := 0 to |projects|
      invariant nodes == ProjectNodes(projects[..i], dark)
    {
      nodes := nodes + [ProjectNodeOf(projects[i], dark)];
    }
    assert projects[..|projects|] == projects;
  }

  /** `posts.forEach`: a node per post, and a link from its project when it has one. */
  method PushPostNodes(posts: seq<BlogPost>, colors: map<string, string>, dark: bool, nodes0: seq<GraphNode>)
    returns (nodes: seq<GraphNode>, links: seq<GraphLink>)
    requires ColorsCover(posts, colors)
    ensures nodes == nodes0 + PostNodes(posts, colors, dark)
    ensures links == ProjectLinks(posts, dark)
  {
    nodes := nodes0;
    links := [];
    for i := 0 to |posts|
      invariant nodes == nodes0 + PostNodes(posts[..i], colors, dark)
      invariant links == ProjectLinks(posts[..i], dark)
    {
      assert posts[..i + 1][..i] == posts[..i];
      var post := posts[i];
      nodes := nodes + [PostNodeOf(post, colors, dark)];
      if post.project.Some? && post.project.value != "" {
        links := links + [ProjectLinkOf(post, dark)];
      }
    }
    assert posts[..|posts|] == posts;
  }

  /** `Object.values(categoryGroups).forEach`: the chain of each group, in key order. */
  method CategoryChains(posts: seq<BlogPost>, groups: map<string, seq<BlogPost>>, order: seq<string>)
    returns (links: seq<GraphLink>)
    requires forall c :: c in groups <==> c in order
    requires forall c :: c in groups ==> groups[c] == Group(posts, c)
    ensures links == ChainLinks(posts, order)
  {
    links := [];
    for k := 0 to |order|
      invariant links == ChainLinks(posts, order[..k])
    {
      ChainLinksSnoc(posts, order, k);
      var chain := ChainGroup(groups[order[k]]);
      links := links + chain;
    }
    assert order[..|order|] == order;
  }

  /**
   * The `useMemo` builder. Colors come from the categories' positions;
   * project nodes precede post nodes; project links precede the category
   * chains, which follow the categories' first appearance (the order of
   * `Object.values(categoryGroups)`). The builder throws when a category
   * names a member inherited from `Object.prototype`.
   */
  method BuildGraph(posts: seq<BlogPost>, dark: bool) returns (r: Outcome<Graph>)
    ensures posts == [] ==> r == Returned(EmptyGraph)
    ensures posts != [] ==> (r.Threw? <==> GroupingThrows(posts))
    ensures posts != [] && r.Returned? ==>
      var g := r.value;
      var cats := Categories(posts);
      && g.colors == ColorMap(cats)
      && ColorsCover(posts, ColorMap(cats))
      && g.nodes == ProjectNodes(Projects(posts), dark) + PostNodes(posts, ColorMap(cats), dark)
      && g.links == ProjectLinks(posts, dark) + ChainLinks(posts, cats)
  {
    if |posts| == 0 {
      return Returned(EmptyGraph);
    }
    var categories := FirstAppearance(CategoryValues(posts));
    var colors := CategoryColorMap(categories);
    CoverAll(posts, colors);
    var projects := CollectProjects(posts);
    var nodes := PushProjectNodes(projects, dark);
    var links;
    nodes, links := PushPostNodes(posts, colors, dark, nodes);
    var ok, groups, order := GroupByCategory(posts);
    if !ok {
      return Threw;
    }
    var chains := CategoryChains(posts, groups, order);
    links := links + chains;
    r := Returned(Graph(nodes, links, colors));
  }

  /** Project nodes come first, one per project; then one node per post, carrying the post's id. */
  lemma NodeLayout(projects: seq<string>, posts: seq<BlogPost>, colors: map<string, string>, dark: bool)
    requires ColorsCover(posts, colors)
    ensures var nodes := ProjectNodes(projects, dark) + PostNodes(posts, colors, dark);
      && |nodes| == |projects| + |posts|
      && (forall i :: 0 <= i < |projects| ==> nodes[i].nodeType == ProjectNode && nodes[i].id == "proj-" + projects[i])
      && (forall j :: 0 <= j < |posts| ==> nodes[|projects| + j].nodeType == PostNode && nodes[|projects| + j].id == posts[j].id)
  {
    var a := ProjectNodes(projects, dark);
    var b := PostNodes(posts, colors, dark);
    forall i | 0 <= i < |projects| ensures (a + b)[i] == a[i] {
    }
    forall j | 0 <= j < |posts| ensures (a + b)[|projects| + j] == b[j] {
    }
  }

  /** A post with a category is colored by its category's position; one without is grey. */
  lemma PostNodeColor(posts: seq<BlogPost>, dark: bool, j: nat)
    requires j < |posts|
    ensures var cats := Categories(posts);
      ColorsCover(posts, ColorMap(cats)) &&
      var node := PostNodeOf(posts[j], ColorMap(cats), dark);
      && (Truthy(posts[j].category) ==>
            exists k :: 0 <= k < |cats| && cats[k] == posts[j].category.value && node.color == CategoryColors[k % 12])
      && (!Truthy(posts[j].category) ==> node.color == if dark then "#888" else "#999")
  {
    var cats := Categories(posts);
    CoverAll(posts, ColorMap(cats));
    if Truthy(posts[j].category) {
      var cat := posts[j].category.value;
      FirstAppearanceMembers(CategoryValues(posts), cat);
      assert CategoryValues(posts)[j] == posts[j].category;
      var k :| 0 <= k < |cats| && cats[k] == cat;
      FirstAppearanceDistinct(CategoryValues(posts));
      ColorMapAt(cats, k);
    }
  }

  /**
   * The `memo` comparator: true (skip the rebuild) iff the post lists have
   * the same length and the same first id, and the `height` props are the
   * same. An omitted `posts` counts as [].
   */
  function SameProps(prevPosts: Option<seq<BlogPost>>, prevHeight: Option<int>,
                     nextPosts: Option<seq<BlogPost>>, nextHeight: Option<int>): (r: bool)
    ensures var p := prevPosts.GetOr([]); var n := nextPosts.GetOr([]);
      r <==> |p| == |n| && (|p| > 0 ==> p[0].id == n[0].id) && prevHeight == nextHeight
  {
    var p := prevPosts.GetOr([]);
    var n := nextPosts.GetOr([]);
    if |p| != |n| then false
    else if |p| > 0 && |n| > 0 && p[0].id != n[0].id then false
    else if prevHeight != nextHeight then false
    else true
  }

  /** Unchanged props are never rebuilt, and the comparator does not depend on the argument order. */
  lemma SamePropsEquivalence(p: Option<seq<BlogPost>>, ph: Option<int>, n: Option<seq<BlogPost>>, nh: Option<int>)
    ensures SameProps(p, ph, p, ph)
    ensures SameProps(p, ph, n, nh) == SameProps(n, nh, p, ph)
  {
  }

  /**
   * The comparator looks only at the first post: a change further down
   * the list (here, the second post gaining a category) keeps the old
   * graph although the new one would differ.
   */
  lemma SamePropsMissesLaterChanges()
    ensures var a := BlogPost("a", "A", "", "", [], None, None);
      var b := BlogPost("b", "B", "", "", [], None, None);
      var b2 := b.(category := Some("x"));
      && SameProps(Some([a, b]), None, Some([a, b2]), None)
      && Categories([a, b]) != Categories([a, b2])
  {
    var a := BlogPost("a", "A", "", "", [], None, None);
    var b := BlogPost("b", "B", "", "", [], None, None);
    var b2 := b.(category := Some("x"));
    FirstAppearanceMembers(CategoryValues([a, b]), "x");
    FirstAppearanceMembers(CategoryValues([a, b2]), "x");
    assert CategoryValues([a, b2])[1] == Some("x");
  }
}
