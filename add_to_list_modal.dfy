/**
 * The dialog that adds a movie to, or removes it from, the user's own lists. When opened
 * it fetches the lists and asks, list by list, whether the movie is in it; the Add/Remove
 * button of a list flips that one list's flag when its request succeeds; a search box
 * narrows the lists shown by a case-insensitive substring match on the name.
 */
module AddToListModal {
  import opened JsValues
  import opened Api
  import opened Collections

  /** A list as `/lists/my_lists` returns it. */
  datatype ListInfo = ListInfo(id: int, name: string, moviesCount: int)

  /** A list with the result of its `check_movie` call spread in. */
  datatype TaggedList = TaggedList(info: ListInfo, hasMovie: bool)

  /**
   * The `Promise.all` over the per-list checks: every list tagged with its own answer, in
   * order, or nothing at all as soon as one check fails.
   */
  function TagAll(ls: seq<ListInfo>, check: ListInfo -> Outcome<bool>): (r: Option<seq<TaggedList>>)
    ensures r.Some? <==> forall i :: 0 <= i < |ls| ==> check(ls[i]).Succeeded?
    ensures r.Some? ==> |r.value| == |ls|
    ensures r.Some? ==> forall i :: 0 <= i < |ls| ==> r.value[i] == TaggedList(ls[i], check(ls[i]).value)
  {
    if ls == [] then Some([])
    else
      match check(ls[0])
      case Failed(_) => None
      case Succeeded(b) =>
        var rest := TagAll(ls[1..], check);
        if rest.None? then None
        else
          var r := [TaggedList(ls[0], b)] + rest.value;
          assert forall i :: 1 <= i < |ls| ==> r[i] == rest.value[i - 1] && ls[i] == ls[1..][i - 1];
          Some(r)
  }

  function ListKey(l: TaggedList): int {
    l.info.id
  }

  /** Sets `hasMovie` on the lists with id `listId`; every other list stays as it was. */
  function SetHasMovie(lists: seq<TaggedList>, listId: int, hasMovie: bool): (r: seq<TaggedList>)
    ensures |r| == |lists|
    ensures forall i :: 0 <= i < |lists| ==>
      r[i] == if lists[i].info.id == listId then lists[i].(hasMovie := hasMovie) else lists[i]
  {
    UpdateWhereAt(lists, ListKey, listId, (l: TaggedList) => l.(hasMovie := hasMovie));
    UpdateWhere(lists, ListKey, listId, (l: TaggedList) => l.(hasMovie := hasMovie))
  }

  /** Adding the movie to a list that did not hold it and then removing it again restores the lists. */
  lemma AddThenRemoveRestores(lists: seq<TaggedList>, listId: int)
    requires forall i :: 0 <= i < |lists| && lists[i].info.id == listId ==> !lists[i].hasMovie
    ensures SetHasMovie(SetHasMovie(lists, listId, true), listId, false) == lists
  {
    var once := SetHasMovie(lists, listId, true);
    var twice := SetHasMovie(once, listId, false);
    assert forall i :: 0 <= i < |lists| ==> twice[i] == lists[i];
  }

  /**
   * The filter of the search box: the lower-cased name contains the lower-cased query. An
   * empty query matches every list, a name matches a query that equals it up to case, and
   * no query longer than the name matches it.
   */
  function NameMatches(l: TaggedList, query: string): (r: bool)
    ensures query == "" ==> r
    ensures ToLower(query) == ToLower(l.info.name) ==> r
    ensures r ==> |query| <= |l.info.name|
  {
    var name := ToLower(l.info.name);
    ContainsEmpty(name);
    assert OccursAt(name, name, 0);
    Contains(name, ToLower(query))
  }

  /** `filteredLists`: exactly the lists whose name matches. */
  function FilteredLists(lists: seq<TaggedList>, query: string): (r: seq<TaggedList>)
    ensures forall l :: l in r <==> l in lists && NameMatches(l, query)
  {
    FilterMembers(lists, l => NameMatches(l, query));
    Filter(lists, l => NameMatches(l, query))
  }

  /** The search keeps the lists in their original order: it splits over any split of the lists. */
  lemma FilteredListsKeepOrder(xs: seq<TaggedList>, ys: seq<TaggedList>, query: string)
    ensures FilteredLists(xs + ys, query) == FilteredLists(xs, query) + FilteredLists(ys, query)
  {
    FilterAppend(xs, ys, l => NameMatches(l, query));
  }

  /** An empty search shows every list. */
  lemma EmptyQueryShowsAll(lists: seq<TaggedList>)
    ensures FilteredLists(lists, "") == lists
  {
    forall i | 0 <= i < |lists|
      ensures NameMatches(lists[i], "")
    {
      ContainsEmpty(ToLower(lists[i].info.name));
    }
    FilterKeepsAll(lists, l => NameMatches(l, ""));
  }

  /** What a list's button does. */
  datatype Action = Add | Remove

  /** The button removes exactly when the list holds the movie. */
  function ActionFor(l: TaggedList): (a: Action)
    ensures a == Remove <==> l.hasMovie
    ensures a == Add <==> !l.hasMovie
  {
    if l.hasMovie then Remove else Add
  }

  class ListsModal {
    var lists: seq<TaggedList>
    var isLoading: bool
    var searchQuery: string

    constructor ()
      ensures lists == [] && !isLoading && searchQuery == ""
    {
      lists := [];
      isLoading := false;
      searchQuery := "";
    }

    /**
     * The fetch effect: nothing is requested while the dialog is closed; when open, the
     * lists are replaced by the tagged lists if the fetch and every check succeed, and
     * otherwise the old lists stay. The loading flag ends lowered either way.
     */
    method FetchLists(isOpen: bool, reply: Outcome<seq<ListInfo>>, check: ListInfo -> Outcome<bool>) returns (requested: bool)
      modifies this
      ensures requested == isOpen
      ensures !isOpen ==> lists == old(lists) && isLoading == old(isLoading)
      ensures isOpen ==> !isLoading
      ensures isOpen && reply.Succeeded? && TagAll(reply.value, check).Some? ==> lists == TagAll(reply.value, check).value
      ensures isOpen && (reply.Failed? || TagAll(reply.value, check).None?) ==> lists == old(lists)
      ensures searchQuery == old(searchQuery)
    {
      if !isOpen {
        return false;
      }
      requested := true;
      isLoading := true;
      if reply.Succeeded? {
        var tagged := TagAll(reply.value, check);
        if tagged.Some? {
          lists := tagged.value;
        }
      }
      isLoading := false;
    }

    /** `handleAddToList`: on success only that list now holds the movie; the loading flag is lowered either way. */
    method HandleAddToList(listId: int, reply: Outcome<()>)
      modifies this
      ensures lists == if reply.Succeeded? then SetHasMovie(old(lists), listId, true) else old(lists)
      ensures !isLoading && searchQuery == old(searchQuery)
    {
      isLoading := true;
      if reply.Succeeded? {
        lists := SetHasMovie(lists, listId, true);
      }
      isLoading := false;
    }

    /** `handleRemoveFromList`: on success only that list no longer holds the movie; the loading flag is lowered either way. */
    method HandleRemoveFromList(listId: int, reply: Outcome<()>)
      modifies this
      ensures lists == if reply.Succeeded? then SetHasMovie(old(lists), listId, false) else old(lists)
      ensures !isLoading && searchQuery == old(searchQuery)
    {
      isLoading := true;
      if reply.Succeeded? {
        lists := SetHasMovie(lists, listId, false);
      }
      isLoading := false;
    }

    /** A click on a list's button: remove when it holds the movie, add otherwise; afterwards that list shows the opposite flag. */
    method ClickAction(l: TaggedList, reply: Outcome<()>) returns (a: Action)
      modifies this
      ensures a == ActionFor(l)
      ensures lists == if reply.Succeeded? then SetHasMovie(old(lists), l.info.id, !l.hasMovie) else old(lists)
      ensures !isLoading && searchQuery == old(searchQuery)
    {
      a := ActionFor(l);
      if l.hasMovie {
        HandleRemoveFromList(l.info.id, reply);
      } else {
        HandleAddToList(l.info.id, reply);
      }
    }
  }
}
