/** The resource tree's search box in `src/pages/saas/PermissionManagement.tsx`. */
module PermissionManagement {
  import opened Basics
  import Lists
  import Search

  datatype ResourceType = Module | Feature | Action

  datatype PermissionAction = View | Create | Edit | Delete

  datatype Permission = Permission(id: string, resourceId: string, action: PermissionAction, name: string,
                                   description: Option<string>)

  datatype Resource = Resource(id: string, code: string, name: string, resourceType: ResourceType,
                               description: Option<string>, parentId: Option<string>,
                               permissions: Option<seq<Permission>>)

  /** A resource matches on its name or on its code, ignoring case. */
  predicate ResourceMatches(r: Resource, query: string)
  {
    Search.Matches(r.name, query) || Search.Matches(r.code, query)
  }

  function QueryMatches(query: string): Resource -> bool
  {
    (r: Resource) => ResourceMatches(r, query)
  }

  /**
   * `filteredResources`: every resource for an empty query, otherwise the
   * resources whose name or code contains the query, ignoring case.
   */
  function FilterResources(resources: seq<Resource>, query: string): (r: seq<Resource>)
    ensures query == [] ==> r == resources
    ensures Lists.IsSubsequence(r, resources)
    ensures query != [] ==> forall x :: x in r <==> x in resources && ResourceMatches(x, query)
  {
    if query == [] then
      Lists.SubsequenceRefl(resources);
      resources
    else
      var r := Lists.Filter(resources, QueryMatches(query));
      assert forall x :: x in r ==> QueryMatches(query)(x) by {
        forall x | x in r ensures QueryMatches(query)(x) {
          var i :| 0 <= i < |r| && r[i] == x;
        }
      }
      r
  }

  /** A resource whose code alone contains the query is listed. */
  lemma CodeMatchSuffices(resources: seq<Resource>, x: Resource, query: string)
    requires x in resources && query != []
    requires Search.Matches(x.code, query) && !Search.Matches(x.name, query)
    ensures x in FilterResources(resources, query)
  {
  }

  /** Typing more into a non-empty search can only drop resources. */
  lemma NarrowingSearch(resources: seq<Resource>, query: string, more: string)
    requires query != []
    ensures forall x :: x in FilterResources(resources, query + more) ==> x in FilterResources(resources, query)
  {
    forall x | x in FilterResources(resources, query + more) ensures x in FilterResources(resources, query) {
      Search.NarrowingQuery(x.name, query, more);
      Search.NarrowingQuery(x.code, query, more);
    }
  }
}
