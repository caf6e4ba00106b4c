/** The projects page: a fixed list of project listings, a search box that
    filters that list, and each listing's progress percentage. */
module ProjectsPage {
  import opened Collections
  import opened Text
  import opened Progress

  datatype ListingStatus = Active | Completed

  datatype Listing = Listing(
    id: string,
    name: string,
    description: string,
    memberCount: nat,
    taskCount: nat,
    completedTasks: nat,
    lastActivity: string,
    dueDate: string,
    status: ListingStatus,
    color: string)

  /** The module-level constant the page searches. */
  function Projects(): seq<Listing>
  {
    [ Listing("project-1", "Website Redesign",
              "Complete overhaul of company website with modern UI/UX",
              5, 12, 8, "2 hours ago", "2025-02-15", Active, "bg-blue-500"),
      Listing("project-2", "Mobile App Development",
              "Cross-platform mobile application for customer engagement",
              8, 25, 7, "1 day ago", "2025-03-01", Active, "bg-green-500"),
      Listing("project-3", "Database Migration",
              "Migrate legacy database to modern cloud infrastructure",
              3, 8, 8, "3 days ago", "2025-01-30", Completed, "bg-purple-500") ]
  }

  /** The search predicate: the lowercased query occurs in the lowercased
      name or description. */
  function Matches(query: string): Listing -> bool
  {
    (p: Listing) => Contains(Lower(p.name), Lower(query)) || Contains(Lower(p.description), Lower(query))
  }

  /** `handleSearch`'s filter, always over the full constant list. */
  function Search(query: string): seq<Listing>
  {
    Filter(Projects(), Matches(query))
  }

  /** The search keeps exactly the matching listings, in their order; the
      empty query keeps all of them; the query's case does not matter. */
  lemma SearchSpec(query: string)
    ensures forall i :: 0 <= i < |Search(query)| ==> Matches(query)(Search(query)[i])
    ensures forall i :: 0 <= i < |Projects()| && Matches(query)(Projects()[i]) ==> Projects()[i] in Search(query)
    ensures IsSubsequence(Search(query), Projects())
    ensures query == "" ==> Search(query) == Projects()
    ensures Search(Lower(query)) == Search(query)
  {
    var ps := Projects();
    FilterIsSubsequence(ps, Matches(query));
    if query == "" {
      forall i | 0 <= i < |ps| ensures Matches(query)(ps[i]) {
        ContainsEmpty(Lower(ps[i].name));
      }
      FilterKeepsAll(ps, Matches(query));
    }
    LowerIdempotent(query);
    FilterCongruent(ps, Matches(Lower(query)), Matches(query));
  }

  /** The listings' progress figures (`getProgressPercentage`): 67%, 28% and
      100%, and only the listing marked completed shows 100%. */
  lemma ListingProgress()
    ensures Percent(Projects()[0].completedTasks, Projects()[0].taskCount) == 67
    ensures Percent(Projects()[1].completedTasks, Projects()[1].taskCount) == 28
    ensures Percent(Projects()[2].completedTasks, Projects()[2].taskCount) == 100
    ensures forall i :: 0 <= i < |Projects()| ==>
              (Projects()[i].status == Completed <==> Percent(Projects()[i].completedTasks, Projects()[i].taskCount) == 100)
  {
    PercentUnique(8, 12, 67);
    PercentUnique(7, 25, 28);
    PercentUnique(8, 8, 100);
  }

  /** The page's state: the query typed and the listings shown. */
  class Page {
    var searchQuery: string
    var filteredProjects: seq<Listing>

    constructor()
      ensures searchQuery == "" && filteredProjects == Projects()
    {
      searchQuery := "";
      filteredProjects := Projects();
    }

    /** `handleSearch`: the result depends on the new query alone, never on
        the previous result. */
    method HandleSearch(query: string)
      modifies this
      ensures searchQuery == query
      ensures filteredProjects == Search(query)
    {
      searchQuery := query;
      filteredProjects := Filter(Projects(), Matches(query));
    }
  }
}
