/**
 * The category and project filters of src/components/Sidebar.tsx: an
 * "All" link and one link per value in each section, with their query
 * strings and highlight flags.
 *
 * `getDatabaseProperties` is not part of this model: its lists are a
 * parameter, used only when the data-source id is set.
 */
module Sidebar {
  import opened Wrappers
  import opened SearchParams

  /** A `Record<string, string | undefined>`, in its entries' order. */
  type Entries = seq<(string, Option<string>)>

  ghost predicate DistinctKeys(es: Entries) {
    forall i, j :: 0 <= i < j < |es| ==> es[i].0 != es[j].0
  }

  /** The entries with a truthy value, as query pairs. */
  function TruthyPairs(es: Entries): (ps: Params)
    ensures |ps| <= |es|
    ensures forall i :: 0 <= i < |ps| ==> ps[i].1 != ""
  {
    if es == [] then []
    else
      var front := TruthyPairs(es[..|es| - 1]);
      var last := es[|es| - 1];
      if Truthy(last.1) then front + [(last.0, last.1.value)] else front
  }

  /** A pair is kept iff its entry's value is truthy. */
  lemma {:induction false} TruthyPairsMembers(es: Entries, k: string, v: string)
    ensures (k, v) in TruthyPairs(es) <==> exists i :: 0 <= i < |es| && es[i] == (k, Some(v)) && v != ""
  {
    if es != [] {
      var front := es[..|es| - 1];
      TruthyPairsMembers(front, k, v);
      if exists i :: 0 <= i < |front| && front[i] == (k, Some(v)) && v != "" {
        var i :| 0 <= i < |front| && front[i] == (k, Some(v)) && v != "";
        assert es[i] == front[i];
      }
      if exists i :: 0 <= i < |es| && es[i] == (k, Some(v)) && v != "" {
        var i :| 0 <= i < |es| && es[i] == (k, Some(v)) && v != "";
        if i < |front| {
          assert front[i] == es[i];
        }
      }
    }
  }

  lemma {:induction false} TruthyPairsKeys(es: Entries, k: string)
    requires forall i :: 0 <= i < |es| ==> es[i].0 != k
    ensures forall i :: 0 <= i < |TruthyPairs(es)| ==> TruthyPairs(es)[i].0 != k
  {
    if es != [] {
      TruthyPairsKeys(es[..|es| - 1], k);
    }
  }

  /** The link a query leads to: '/' for an empty query, else '/?' and the query. */
  function QueryHref(es: Entries): (href: string)
    ensures TruthyPairs(es) == [] ==> href == "/"
    ensures TruthyPairs(es) != [] ==> href == "/?" + Serialize(TruthyPairs(es))
  {
    var q := Serialize(TruthyPairs(es));
    if q != "" then "/?" + q else "/"
  }

  /**
   * `createQueryString`: `set` of every truthy entry on fresh search
   * params. A record's keys are distinct, so every `set` appends.
   */
  method CreateQueryString(es: Entries) returns (href: string)
    requires DistinctKeys(es)
    ensures href == QueryHref(es)
  {
    var params: Params := [];
    for i := 0 to |es|
      invariant params == TruthyPairs(es[..i])
    {
      assert es[..i + 1][..i] == es[..i];
      var (key, value) := es[i];
      if value.Some? && value.value != "" {
        TruthyPairsKeys(es[..i], key);
        SetAbsentAppends(params, key, value.value);
        params := Set(params, key, value.value);
      }
    }
    assert es[..|es|] == es;
    var queryString := Serialize(params);
    href := if queryString != "" then "/?" + queryString else "/";
  }

  datatype FilterLink = FilterLink(text: string, href: string, highlighted: bool)

  /** A section: its "All" link and one link per value. */
  datatype Section = Section(all: FilterLink, items: seq<FilterLink>)

  datatype View = View(categories: Option<Section>, projects: Option<Section>)

  /** The values `getDatabaseProperties` reports. */
  datatype Properties = Properties(categories: seq<string>, projects: seq<string>)

  /**
   * The category section: "All" keeps the current project and drops the
   * category; a value's link carries the current project and that value.
   */
  method CategorySection(categories: seq<string>, currentCategory: Option<string>, currentProject: Option<string>)
    returns (s: Section)
    ensures s.all == FilterLink("All", QueryHref([("project", currentProject)]), !Truthy(currentCategory))
    ensures |s.items| == |categories|
    ensures forall i :: 0 <= i < |categories| ==>
      s.items[i] == FilterLink(categories[i], QueryHref([("project", currentProject), ("category", Some(categories[i]))]),
                               currentCategory == Some(categories[i]))
  {
    var allHref := CreateQueryString([("project", currentProject)]);
    var items: seq<FilterLink> := [];
    for i := 0 to |categories|
      invariant |items| == i
      invariant forall j :: 0 <= j < i ==>
        items[j] == FilterLink(categories[j], QueryHref([("project", currentProject), ("category", Some(categories[j]))]),
                               currentCategory == Some(categories[j]))
    {
      var href := CreateQueryString([("project", currentProject), ("category", Some(categories[i]))]);
      items := items + [FilterLink(categories[i], href, currentCategory == Some(categories[i]))];
    }
    s := Section(FilterLink("All", allHref, !Truthy(currentCategory)), items);
  }

  /**
   * The project section: "All" keeps the current category and drops the
   * project; a value's link carries the current category and that value.
   */
  method ProjectSection(projects: seq<string>, currentCategory: Option<string>, currentProject: Option<string>)
    returns (s: Section)
    ensures s.all == FilterLink("All", QueryHref([("category", currentCategory)]), !Truthy(currentProject))
    ensures |s.items| == |projects|
    ensures forall i :: 0 <= i < |projects| ==>
      s.items[i] == FilterLink(projects[i], QueryHref([("category", currentCategory), ("project", Some(projects[i]))]),
                               currentProject == Some(projects[i]))
  {
    var allHref := CreateQueryString([("category", currentCategory)]);
    var items: seq<FilterLink> := [];
    for i := 0 to |projects|
      invariant |items| == i
      invariant forall j :: 0 <= j < i ==>
        items[j] == FilterLink(projects[j], QueryHref([("category", currentCategory), ("project", Some(projects[j]))]),
                               currentProject == Some(projects[j]))
    {
      var href := CreateQueryString([("category", currentCategory), ("project", Some(projects[i]))]);
      items := items + [FilterLink(projects[i], href, currentProject == Some(projects[i]))];
    }
    s := Section(FilterLink("All", allHref, !Truthy(currentProject)), items);
  }

  /**
   * `Sidebar`: without a data-source id both lists stay empty; a section
   * is shown only for a non-empty list.
   */
  method Render(dataSourceId: Option<string>, properties: Properties,
                currentCategory: Option<string>, currentProject: Option<string>) returns (v: View)
    ensures !Truthy(dataSourceId) ==> v == View(None, None)
    ensures v.categories.Some? <==> Truthy(dataSourceId) && |properties.categories| > 0
    ensures v.projects.Some? <==> Truthy(dataSourceId) && |properties.projects| > 0
    ensures v.categories.Some? ==> |v.categories.value.items| == |properties.categories|
    ensures v.projects.Some? ==> |v.projects.value.items| == |properties.projects|
    ensures v.categories.Some? ==>
      v.categories.value.all == FilterLink("All", QueryHref([("project", currentProject)]), !Truthy(currentCategory))
    ensures v.categories.Some? ==> forall i :: 0 <= i < |properties.categories| ==>
      v.categories.value.items[i] ==
        FilterLink(properties.categories[i],
                   QueryHref([("project", currentProject), ("category", Some(properties.categories[i]))]),
                   currentCategory == Some(properties.categories[i]))
    ensures v.projects.Some? ==>
      v.projects.value.all == FilterLink("All", QueryHref([("category", currentCategory)]), !Truthy(currentProject))
    ensures v.projects.Some? ==> forall i :: 0 <= i < |properties.projects| ==>
      v.projects.value.items[i] ==
        FilterLink(properties.projects[i],
                   QueryHref([("category", currentCategory), ("project", Some(properties.projects[i]))]),
                   currentProject == Some(properties.projects[i]))
  {
    var categories: seq<string> := [];
    var projects: seq<string> := [];
    if Truthy(dataSourceId) {
      categories := properties.categories;
      projects := properties.projects;
    }
    var cs: Option<Section> := None;
    var ps: Option<Section> := None;
    if |categories| > 0 {
      var s := CategorySection(categories, currentCategory, currentProject);
      cs := Some(s);
    }
    if |projects| > 0 {
      var s := ProjectSection(projects, currentCategory, currentProject);
      ps := Some(s);
    }
    v := View(cs, ps);
  }

  /** The category links never carry a category other than their own, and keep the current project. */
  lemma CategoryLinkQuery(currentProject: Option<string>, category: string)
    requires category != ""
    ensures var ps := TruthyPairs([("project", currentProject), ("category", Some(category))]);
      && Get(ps, "category") == Some(category)
      && (Truthy(currentProject) ==> Get(ps, "project") == currentProject)
      && (!Truthy(currentProject) ==> Get(ps, "project") == None)
  {
    var es: Entries := [("project", currentProject), ("category", Some(category))];
    assert es[..1] == [("project", currentProject)];
    assert TruthyPairs(es[..1][..0]) == [];
  }

  /** "All" drops the category and keeps exactly the current project. */
  lemma AllCategoriesQuery(currentProject: Option<string>)
    ensures var ps := TruthyPairs([("project", currentProject)]);
      && Get(ps, "category") == None
      && (Truthy(currentProject) ==> ps == [("project", currentProject.value)])
      && (!Truthy(currentProject) ==> QueryHref([("project", currentProject)]) == "/")
  {
    var es: Entries := [("project", currentProject)];
    assert es[..0] == [];
  }
}
