/**
 * The file and folder searches (app/zapier/files/searches.js): list a
 * section with its subfolders, newest first, and keep the items whose title
 * contains the query text.
 */
module FileSearches {
  import opened Outcomes
  import opened Entities
  import Seqs
  import DocspaceClient

  type Filters = DocspaceClient.Filters

  /** The fixed listing filters of both searches. */
  function SearchFilters(): Filters {
    [("sortBy", DocspaceClient.Text("DateAndTime")),
     ("sortOrder", DocspaceClient.Text("descending")),
     ("withSubfolders", DocspaceClient.Flag(true))]
  }

  /** `item.title.includes(query)`. */
  function TitleContains(query: string): Item -> bool {
    (item: Item) => Seqs.Includes(item.title, query)
  }

  /** The items of a listing whose title contains `query`. */
  function Matching(listed: Result<seq<Item>>, query: string): Result<seq<Item>> {
    match listed
    case Err(e) => Err(e)
    case Ok(items) => Ok(Seqs.Keep(items, TitleContains(query)))
  }

  /** `searchFile`: the files of the section whose title contains the query. */
  function SearchFile(folderId: Option<int>, query: string, listFiles: (Option<int>, Filters) -> Result<seq<Item>>)
    : (r: Result<seq<Item>>)
    ensures r.Ok? <==> listFiles(folderId, SearchFilters()).Ok?
    ensures r.Err? ==> r.error == listFiles(folderId, SearchFilters()).error
    ensures r.Ok? ==> forall x :: x in r.value ==> x in listFiles(folderId, SearchFilters()).value && Seqs.Includes(x.title, query)
  {
    Matching(listFiles(folderId, SearchFilters()), query)
  }

  /** `searchFolder`: the folders of the section whose title contains the query. */
  function SearchFolder(folderId: Option<int>, query: string, listFolders: (Option<int>, Filters) -> Result<seq<Item>>)
    : (r: Result<seq<Item>>)
    ensures r.Ok? <==> listFolders(folderId, SearchFilters()).Ok?
    ensures r.Err? ==> r.error == listFolders(folderId, SearchFilters()).error
    ensures r.Ok? ==> forall x :: x in r.value ==> x in listFolders(folderId, SearchFilters()).value && Seqs.Includes(x.title, query)
  {
    Matching(listFolders(folderId, SearchFilters()), query)
  }

  /**
   * A search keeps exactly the listed items whose title has the query at some
   * position, in the listing's order; a failed listing fails the search.
   */
  lemma {:induction false} MatchingIsExact(listed: Result<seq<Item>>, query: string)
    ensures listed.Err? ==> Matching(listed, query) == listed
    ensures listed.Ok? ==> Matching(listed, query).Ok?
    ensures listed.Ok? ==> forall x :: x in listed.value ==>
      (x in Matching(listed, query).value <==> exists i :: Seqs.OccursAt(x.title, query, i))
    ensures listed.Ok? ==> forall x :: x in Matching(listed, query).value ==> x in listed.value
    ensures listed.Ok? ==> Seqs.IsSubsequence(Matching(listed, query).value, listed.value)
  {
    if listed.Ok? {
      var kept := Seqs.Keep(listed.value, TitleContains(query));
      forall x | x in listed.value
        ensures x in kept <==> exists i :: Seqs.OccursAt(x.title, query, i)
      {
        Seqs.IncludesIffOccurs(x.title, query);
        if TitleContains(query)(x) {
          assert multiset(kept)[x] == multiset(listed.value)[x];
        }
      }
      Seqs.KeepIsSubsequence(listed.value, TitleContains(query));
    }
  }

  /** Both searches list the section's items newest first, subfolders included. */
  lemma SearchesUseFixedFilters(folderId: Option<int>, query: string, list: (Option<int>, Filters) -> Result<seq<Item>>)
    ensures SearchFile(folderId, query, list) == Matching(list(folderId, SearchFilters()), query)
    ensures SearchFolder(folderId, query, list) == SearchFile(folderId, query, list)
    ensures DocspaceClient.QueryPairs(SearchFilters()) ==
      [("sortBy", "DateAndTime"), ("sortOrder", "descending"), ("withSubfolders", "true")]
  {
    var f := SearchFilters();
    assert f[1..][1..][1..] == [];
    assert DocspaceClient.QueryPairs(f[1..][1..][1..]) == [];
  }

  /** An empty query matches every listed item. */
  lemma EmptyQueryKeepsAll(items: seq<Item>)
    ensures forall x :: x in items ==> x in Matching(Ok(items), "").value
  {
    forall x | x in items
      ensures x in Matching(Ok(items), "").value
    {
      Seqs.EveryStringIncludesEmpty(x.title);
      assert multiset(Seqs.Keep(items, TitleContains("")))[x] == multiset(items)[x];
    }
  }
}
