/**
 * The list page's query-string handling: which field to sort on, in which
 * direction, the order the column header's link asks for next, and the name
 * filter given to the document store.
 */
module ListView {
  import opened Records

  /** The store query: every document, or those whose name matches a pattern (a regular expression, case-insensitive). */
  datatype Filter = MatchAll | NameMatches(pattern: string, options: string)

  /** What the list page asks the store for and what it hands to its template. */
  datatype ListQuery = ListQuery(
    sortField: string,
    direction: int,      // 1 ascending, -1 descending
    filter: Filter,
    nextOrder: string,   // the order the header link asks for
    searchQuery: string)

  /** The order the header link asks for: ascending after descending, descending after anything else. */
  function NextOrder(order: string): (r: string)
    ensures r == "asc" || r == "desc"
    ensures r == "asc" <==> order == "desc"
  {
    if order == "desc" then "asc" else "desc"
  }

  /** The sort direction: descending for "desc", ascending for any other value. */
  function Direction(order: string): (d: int)
    ensures d == 1 || d == -1
    ensures d == -1 <==> order == "desc"
  {
    if order == "desc" then -1 else 1
  }

  /** A search string filters on the name; an empty one filters nothing. */
  function SearchFilter(search: string): (f: Filter)
    ensures f == MatchAll <==> search == ""
    ensures f != MatchAll ==> f.pattern == search && f.options == "i"
  {
    if search != "" then NameMatches(search, "i") else MatchAll
  }

  /** The list page's reading of its query string. */
  function ReadQuery(args: Args): (q: ListQuery)
    ensures q.sortField == Lookup(args, "sort", "created_at")
    ensures q.searchQuery == Lookup(args, "search", "")
    ensures q.direction == 1 || q.direction == -1
    ensures q.nextOrder == "asc" || q.nextOrder == "desc"
    ensures q.filter == MatchAll <==> q.searchQuery == ""
    ensures q.filter != MatchAll ==> q.filter == NameMatches(q.searchQuery, "i")
    ensures q.direction == -1 <==> Lookup(args, "order", "desc") == "desc"
    ensures q.nextOrder == "asc" <==> Lookup(args, "order", "desc") == "desc"
  {
    var order := Lookup(args, "order", "desc");
    var search := Lookup(args, "search", "");
    ListQuery(Lookup(args, "sort", "created_at"), Direction(order), SearchFilter(search), NextOrder(order), search)
  }

  /** Without parameters the list shows every document, newest first, and offers ascending order next. */
  lemma ReadDefaults(args: Args)
    requires "sort" !in args && "order" !in args && "search" !in args
    ensures ReadQuery(args) == ListQuery("created_at", -1, MatchAll, "asc", "")
  {
  }

  /** Only the three parameters it names affect the list page. */
  lemma ReadIgnoresOtherKeys(args: Args, key: string, value: string)
    requires key != "sort" && key != "order" && key != "search"
    ensures ReadQuery(args[key := value]) == ReadQuery(args)
  {
  }

  /** The order the header link asks for sorts the other way round. */
  lemma ToggleFlipsDirection(order: string)
    ensures Direction(NextOrder(order)) == -Direction(order)
  {
  }

  /** Following the header link reverses the list and keeps the field and the filter. */
  lemma FollowLinkReverses(args: Args)
    ensures var q := ReadQuery(args);
      var p := ReadQuery(args["order" := q.nextOrder]);
      p.direction == -q.direction && p.sortField == q.sortField && p.filter == q.filter
  {
    ToggleFlipsDirection(Lookup(args, "order", "desc"));
  }

  /** On the two orders the header link offers, toggling twice gives the order back. */
  lemma ToggleReturns(order: string)
    requires order == "asc" || order == "desc"
    ensures NextOrder(NextOrder(order)) == order
  {
  }

  /** Following the header link twice gives the first list back, with the same link. */
  lemma FollowLinkTwice(args: Args)
    ensures var q := ReadQuery(args);
      var p := ReadQuery(args["order" := q.nextOrder]);
      var r := ReadQuery(args["order" := p.nextOrder]);
      r == q
  {
    FollowLinkReverses(args);
    FollowLinkReverses(args["order" := ReadQuery(args).nextOrder]);
  }
}
