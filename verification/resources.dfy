/** The resource library (`Resources`): category and text filters, icons, empty state. */
module Resources {
  import opened Text
  import opened Seqs

  /** A resource; the library itself is supplied by a fixture module outside this model. */
  datatype Resource = Resource(id: nat, title: string, description: string, category: string, link: string)

  const Categories := ["All", "Frontend", "Backend", "AI / ML", "APIs", "Dev Tools"]

  datatype Icon = CodeIcon | ServerIcon | BrainIcon | ZapIcon | BookIcon

  /** The four named categories have their own icon; any other, `Dev Tools` included, gets the book. */
  function CategoryIcon(category: string): (i: Icon)
    ensures i == BookIcon <==> category !in ["Frontend", "Backend", "AI / ML", "APIs"]
    ensures category == "Frontend" ==> i == CodeIcon
    ensures category == "Backend" ==> i == ServerIcon
    ensures category == "AI / ML" ==> i == BrainIcon
    ensures category == "APIs" ==> i == ZapIcon
  {
    match category
    case "Frontend" => CodeIcon
    case "Backend" => ServerIcon
    case "AI / ML" => BrainIcon
    case "APIs" => ZapIcon
    case _ => BookIcon
  }

  /** Of the categories the page offers after `All`, only `Dev Tools` has no icon of its own: its resources show the book. */
  lemma CategoryButtonsIcons()
    ensures forall i :: 1 <= i < |Categories| ==> (CategoryIcon(Categories[i]) == BookIcon <==> Categories[i] == "Dev Tools")
  {
  }

  datatype Filters = Filters(category: string, query: string)

  const NoFilters := Filters("All", "")

  predicate Matches(r: Resource, f: Filters) {
    && (f.category == "All" || r.category == f.category)
    && (ContainsFolded(r.title, f.query) || ContainsFolded(r.description, f.query))
  }

  function FilteredResources(rs: seq<Resource>, f: Filters): (out: seq<Resource>)
    ensures |out| <= |rs|
  {
    Filter(rs, r => Matches(r, f))
  }

  /**
   * A resource is listed iff its category is the selected one (or `All` is
   * selected) and its title or description contains the query, ignoring case;
   * the list keeps the library's order.
   */
  lemma FilteredResourcesSpec(rs: seq<Resource>, f: Filters)
    ensures IsSubseq(FilteredResources(rs, f), rs)
    ensures forall r :: r in FilteredResources(rs, f) <==>
              && r in rs
              && (f.category == "All" || r.category == f.category)
              && (ContainsFolded(r.title, f.query) || ContainsFolded(r.description, f.query))
  {
    FilterSpec(rs, r => Matches(r, f));
  }

  /** `All` and an empty query list the whole library. */
  lemma NoFiltersShowAll(rs: seq<Resource>)
    ensures FilteredResources(rs, NoFilters) == rs
  {
    var m := (r: Resource) => Matches(r, NoFilters);
    forall i | 0 <= i < |rs| ensures m(rs[i]) {
      EmptyQueryMatches(rs[i].title);
    }
    FilterKeepsAll(rs, m);
  }

  /** The empty-state block shows exactly when no resource is listed, no matter the filters. */
  function ShowsEmptyState(rs: seq<Resource>, f: Filters): (b: bool)
    ensures b <==> forall r :: r in rs ==> !Matches(r, f)
  {
    FilterSpec(rs, r => Matches(r, f));
    var out := FilteredResources(rs, f);
    assert out != [] ==> out[0] in out;
    |out| == 0
  }

  /** The empty state's Clear Filters button. */
  function ClearFilters(f: Filters): (r: Filters)
    ensures r.category == "All" && r.query == ""
  {
    NoFilters
  }
}
