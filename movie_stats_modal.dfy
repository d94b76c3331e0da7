/**
 * The dialog that lists the signed-in user's watchlist entries of one kind (watched,
 * watchlist or favourites): initial filters from the kind, query parameters from the
 * filters, page merge, the scroll trigger for the next page, and the per-entry watchlist,
 * watched and favourite toggles, each of which rewrites only the entries of the same
 * movie and leaves the list alone when its request fails.
 */
module MovieStatsModal {
  import opened JsValues
  import opened Api
  import opened Collections
  import opened WatchStatus

  /** The movie inside a watchlist entry. */
  datatype MovieInfo = MovieInfo(tmdbId: int, title: string, isFavorite: bool)

  /**
   * A watchlist entry: its own id, a top-level `tmdb_id` if the entry carries one, the
   * movie, and its status.
   */
  datatype Entry = Entry(id: int, ownTmdbId: Option<int>, movie: MovieInfo, status: Status)

  /** One page of `/auth/me/watchlist/`. */
  datatype WatchlistPage = WatchlistPage(results: seq<Entry>, count: int, next: JsonString)

  /** The status and favourite filters. */
  datatype Filters = Filters(status: string, favorite: string)

  /** The filters the dialog opens with: favourites look at every status, the other kinds at their own. */
  function InitialFilters(kind: string): (f: Filters)
    ensures kind == "favorites" ==> f == Filters("all", "favorite")
    ensures kind != "favorites" ==> f == Filters(kind, "all")
  {
    Filters(if kind == "favorites" then "all" else kind, if kind == "favorites" then "favorite" else "all")
  }

  /** A query parameter value. */
  datatype Param = Num(n: int) | Str(s: string) | Flag(b: bool)

  /** The `params` object `fetchMovies` builds: page and search always, each filter only when it is not "all". */
  method QueryParams(pageNum: int, search: string, filters: Filters) returns (params: map<string, Param>)
    ensures params.Keys <= {"page", "search", "status", "is_favorite"}
    ensures "page" in params && params["page"] == Num(pageNum)
    ensures "search" in params && params["search"] == Str(search)
    ensures "status" in params <==> filters.status != "all"
    ensures "status" in params ==> params["status"] == Str(filters.status)
    ensures "is_favorite" in params <==> filters.favorite != "all"
    ensures "is_favorite" in params ==> params["is_favorite"] == Flag(filters.favorite == "favorite")
  {
    params := map["page" := Num(pageNum), "search" := Str(search)];
    if filters.status != "all" {
      params := params["status" := Str(filters.status)];
    }
    if filters.favorite != "all" {
      params := params["is_favorite" := Flag(filters.favorite == "favorite")];
    }
  }

  /** The favourites filter button: "favorite" goes to "all", anything else to "favorite". */
  function NextFavoriteFilter(f: string): (g: string)
    ensures g == "favorite" <==> f != "favorite"
    ensures g == "all" <==> f == "favorite"
  {
    if f == "favorite" then "all" else "favorite"
  }

  /** Pressing the favourites button twice from either of its two settings comes back to it. */
  lemma FavoriteFilterAlternates(f: string)
    requires f == "favorite" || f == "all"
    ensures NextFavoriteFilter(NextFavoriteFilter(f)) == f
    ensures NextFavoriteFilter(f) != f
  {
  }

  function MovieKey(e: Entry): int {
    e.movie.tmdbId
  }

  /** Sets the status of every entry of movie `tmdbId`; the others, and the order, stay as they were. */
  function SetStatus(movies: seq<Entry>, tmdbId: int, s: Status): (r: seq<Entry>)
    ensures |r| == |movies|
    ensures forall i :: 0 <= i < |movies| ==>
      r[i] == if movies[i].movie.tmdbId == tmdbId then movies[i].(status := s) else movies[i]
  {
    UpdateWhereAt(movies, MovieKey, tmdbId, (e: Entry) => e.(status := s));
    UpdateWhere(movies, MovieKey, tmdbId, (e: Entry) => e.(status := s))
  }

  /** Sets the favourite flag of every entry of movie `tmdbId`; the others stay as they were. */
  function SetFavorite(movies: seq<Entry>, tmdbId: int, isFavorite: bool): (r: seq<Entry>)
    ensures |r| == |movies|
    ensures forall i :: 0 <= i < |movies| ==>
      r[i] == if movies[i].movie.tmdbId == tmdbId then movies[i].(movie := movies[i].movie.(isFavorite := isFavorite)) else movies[i]
  {
    UpdateWhereAt(movies, MovieKey, tmdbId, (e: Entry) => e.(movie := e.movie.(isFavorite := isFavorite)));
    UpdateWhere(movies, MovieKey, tmdbId, (e: Entry) => e.(movie := e.movie.(isFavorite := isFavorite)))
  }

  /** The watchlist request of an entry's add/remove button. */
  datatype WatchlistCall = AddEntry(tmdbId: Option<int>) | RemoveEntry(tmdbId: Option<int>)

  /** The entry's action button: watched and watchlist entries mark as watched, a falsy status adds, any other status shows none. */
  datatype ItemAction = MarkWatchedButton | AddButton

  function ItemButton(s: Status): (a: Option<ItemAction>)
    ensures a == Some(MarkWatchedButton) <==> s == Some("watched") || s == Some("watchlist")
    ensures a == Some(AddButton) <==> !Truthy(s)
  {
    if s == Some("watched") then Some(MarkWatchedButton)
    else if s == Some("watchlist") then Some(MarkWatchedButton)
    else if !Truthy(s) then Some(AddButton)
    else None
  }

  /**
   * `handleWatchlistToggle` AS WRITTEN. It is handed the whole entry but reads
   * `tmdb_id` from the entry itself, not from `entry.movie`, both for the request and for
   * picking the entries to update; an entry without a top-level id is then sent without
   * one and matches no entry.
   */
  function ToggleCallAsWritten(entry: Entry): (c: WatchlistCall)
    ensures !Truthy(entry.status) <==> c == AddEntry(entry.ownTmdbId)
    ensures Truthy(entry.status) <==> c == RemoveEntry(entry.ownTmdbId)
  {
    if !Truthy(entry.status) then AddEntry(entry.ownTmdbId) else RemoveEntry(entry.ownTmdbId)
  }

  /**
   * The list after the toggle as written: on success, the entries whose movie id equals
   * the clicked entry's top-level id take the toggled status; when the clicked entry has
   * no top-level id, nothing matches and the list stays as it was.
   */
  function AfterToggleAsWritten(movies: seq<Entry>, entry: Entry, succeeded: bool): (r: seq<Entry>)
    ensures |r| == |movies|
    ensures forall i :: 0 <= i < |movies| ==>
      r[i] == if succeeded && Some(movies[i].movie.tmdbId) == entry.ownTmdbId
              then movies[i].(status := WatchlistToggle(entry.status).next) else movies[i]
    ensures !succeeded || entry.ownTmdbId.None? ==> r == movies
  {
    if !succeeded then movies
    else
      var next := WatchlistToggle(entry.status).next;
      var keyOf := (e: Entry) => Some(e.movie.tmdbId);
      var f := (e: Entry) => e.(status := next);
      UpdateWhereAt(movies, keyOf, entry.ownTmdbId, f);
      UpdateWhere(movies, keyOf, entry.ownTmdbId, f)
  }

  /**
   * The discrepancy: an entry of movie 550 without a top-level id, added successfully,
   * is posted without a movie id and keeps its empty status in the list, while the
   * corrected toggle posts 550 and shows the entry on the watchlist.
   */
  lemma AsWrittenMissesEntry()
    ensures var e := Entry(1, None, MovieInfo(550, "Fight Club", false), None);
      && ToggleCallAsWritten(e) == AddEntry(None)
      && AfterToggleAsWritten([e], e, true) == [e]
      && ToggleCall(e) == AddEntry(Some(550))
      && AfterToggle([e], e, true) == [e.(status := Some("watchlist"))]
  {
    var e := Entry(1, None, MovieInfo(550, "Fight Club", false), None);
    assert [e][1..] == [];
    assert UpdateWhere([e], (x: Entry) => Some(x.movie.tmdbId), None, (x: Entry) => x.(status := Some("watchlist"))) == [e];
  }

  /** `handleWatchlistToggle` as intended: keyed on `entry.movie.tmdb_id`, like the other two toggles. */
  function ToggleCall(entry: Entry): (c: WatchlistCall)
    ensures !Truthy(entry.status) <==> c == AddEntry(Some(entry.movie.tmdbId))
    ensures Truthy(entry.status) <==> c == RemoveEntry(Some(entry.movie.tmdbId))
  {
    if !Truthy(entry.status) then AddEntry(Some(entry.movie.tmdbId)) else RemoveEntry(Some(entry.movie.tmdbId))
  }

  /** The list after the corrected toggle: on success every entry of the clicked entry's movie takes the toggled status. */
  function AfterToggle(movies: seq<Entry>, entry: Entry, succeeded: bool): (r: seq<Entry>)
    ensures |r| == |movies|
    ensures forall i :: 0 <= i < |movies| ==>
      r[i] == if succeeded && movies[i].movie.tmdbId == entry.movie.tmdbId
              then movies[i].(status := WatchlistToggle(entry.status).next) else movies[i]
    ensures !succeeded ==> r == movies
  {
    if !succeeded then movies else SetStatus(movies, entry.movie.tmdbId, WatchlistToggle(entry.status).next)
  }

  /**
   * The corrected toggle does what the button says: after a successful request the entry
   * clicked, wherever it is in the list, has the toggled status, other movies' entries are
   * untouched, and a failed request changes nothing.
   */
  lemma ToggleUpdatesClickedEntry(movies: seq<Entry>, i: int, succeeded: bool)
    requires 0 <= i < |movies|
    ensures var r := AfterToggle(movies, movies[i], succeeded);
      && |r| == |movies|
      && (succeeded ==> r[i] == movies[i].(status := WatchlistToggle(movies[i].status).next))
      && (!succeeded ==> r == movies)
      && forall j :: 0 <= j < |movies| && movies[j].movie.tmdbId != movies[i].movie.tmdbId ==> r[j] == movies[j]
  {
  }

  /** The dialog's state. */
  class StatsModal {
    var movies: seq<Entry>
    var isLoading: bool
    var page: int
    var hasMore: bool
    var totalCount: int
    var filters: Filters
    var debouncedSearch: string

    constructor (kind: string)
      ensures movies == [] && !isLoading && page == 1 && hasMore && totalCount == 0
      ensures filters == InitialFilters(kind) && debouncedSearch == ""
    {
      movies := [];
      isLoading := false;
      page := 1;
      hasMore := true;
      totalCount := 0;
      filters := InitialFilters(kind);
      debouncedSearch := "";
    }

    /** `fetchMovies`: page 1 replaces the list, a later page is appended; a failure keeps everything but the loading flag. */
    method FetchMovies(pageNum: int, search: string, reply: Outcome<WatchlistPage>) returns (params: map<string, Param>)
      modifies this
      ensures params.Keys <= {"page", "search", "status", "is_favorite"}
      ensures "page" in params && params["page"] == Num(pageNum) && "search" in params && params["search"] == Str(search)
      ensures "status" in params <==> filters.status != "all"
      ensures "status" in params ==> params["status"] == Str(filters.status)
      ensures "is_favorite" in params <==> filters.favorite != "all"
      ensures "is_favorite" in params ==> params["is_favorite"] == Flag(filters.favorite == "favorite")
      ensures !isLoading
      ensures reply.Succeeded? ==>
        && movies == MergePage(old(movies), pageNum, reply.value.results)
        && totalCount == reply.value.count
        && hasMore == (reply.value.next != Null)
      ensures reply.Failed? ==> movies == old(movies) && totalCount == old(totalCount) && hasMore == old(hasMore)
      ensures page == old(page) && filters == old(filters) && debouncedSearch == old(debouncedSearch)
    {
      isLoading := true;
      params := QueryParams(pageNum, search, filters);
      match reply {
        case Succeeded(p) =>
          movies := MergePage(movies, pageNum, p.results);
          totalCount := p.count;
          hasMore := p.next != Null;
        case Failed(_) =>
      }
      isLoading := false;
    }

    /**
     * The scroll condition: what is left to scroll is at most 1.5 client heights, nothing is
     * loading, and there is more. The model compares twice the distance with three client
     * heights, which for the integer pixel offsets is the same as the source's product.
     */
    function ShouldLoadMore(scrollTop: int, clientHeight: int, scrollHeight: int): (r: bool)
      reads this
      ensures r <==> (scrollHeight - scrollTop) as real <= clientHeight as real * 1.5 && !isLoading && hasMore
    {
      2 * (scrollHeight - scrollTop) <= 3 * clientHeight && !isLoading && hasMore
    }

    /** `handleScroll`: when the condition holds, the next page is requested and merged. */
    method OnScroll(scrollTop: int, clientHeight: int, scrollHeight: int, reply: Outcome<WatchlistPage>)
      returns (requested: Option<int>)
      modifies this
      ensures !old(ShouldLoadMore(scrollTop, clientHeight, scrollHeight)) ==>
        requested.None? && movies == old(movies) && page == old(page) && isLoading == old(isLoading)
      ensures old(ShouldLoadMore(scrollTop, clientHeight, scrollHeight)) ==>
        && requested == Some(old(page) + 1) && page == old(page) + 1 && !isLoading
        && (reply.Succeeded? ==> movies == MergePage(old(movies), old(page) + 1, reply.value.results))
        && (reply.Failed? ==> movies == old(movies))
      ensures filters == old(filters) && debouncedSearch == old(debouncedSearch)
    {
      if !ShouldLoadMore(scrollTop, clientHeight, scrollHeight) {
        return None;
      }
      var next := page + 1;
      page := next;
      var _ := FetchMovies(next, debouncedSearch, reply);
      requested := Some(next);
    }

    /**
     * A status filter button. The fetch effect runs only when the filter's value changes:
     * then the page goes back to 1 and the first page is fetched again; pressing the
     * active filter changes nothing.
     */
    method SetStatusFilter(status: string, reply: Outcome<WatchlistPage>) returns (fetched: bool)
      modifies this
      ensures fetched <==> status != old(filters).status
      ensures filters == old(filters).(status := status)
      ensures !fetched ==> movies == old(movies) && page == old(page) && isLoading == old(isLoading)
      ensures fetched ==> page == 1 && !isLoading
      ensures fetched && reply.Succeeded? ==> movies == reply.value.results
      ensures fetched && reply.Failed? ==> movies == old(movies)
      ensures debouncedSearch == old(debouncedSearch)
    {
      if status == filters.status {
        return false;
      }
      filters := filters.(status := status);
      page := 1;
      var _ := FetchMovies(1, debouncedSearch, reply);
      fetched := true;
    }

    /**
     * The debounced search settling on `query`: the page goes back to 1 and, when the
     * settled query differs from the previous one, the first page is fetched for it.
     */
    method SettleSearch(query: string, reply: Outcome<WatchlistPage>) returns (fetched: bool)
      modifies this
      ensures fetched <==> query != old(debouncedSearch)
      ensures debouncedSearch == query && page == 1 && filters == old(filters)
      ensures !fetched ==> movies == old(movies) && isLoading == old(isLoading)
      ensures fetched ==> !isLoading
      ensures fetched && reply.Succeeded? ==> movies == reply.value.results
      ensures fetched && reply.Failed? ==> movies == old(movies)
    {
      fetched := query != debouncedSearch;
      debouncedSearch := query;
      page := 1;
      if fetched {
        var _ := FetchMovies(1, query, reply);
      }
    }

    /** The favourites button: the favourite filter alternates, and the first page is fetched again. */
    method ToggleFavoriteFilter(reply: Outcome<WatchlistPage>)
      modifies this
      ensures filters == old(filters).(favorite := NextFavoriteFilter(old(filters).favorite)) && page == 1 && !isLoading
      ensures reply.Succeeded? ==> movies == reply.value.results
      ensures reply.Failed? ==> movies == old(movies)
      ensures debouncedSearch == old(debouncedSearch)
    {
      filters := filters.(favorite := NextFavoriteFilter(filters.favorite));
      page := 1;
      var _ := FetchMovies(1, debouncedSearch, reply);
    }

    /** The add/remove button of an entry, keyed on the entry's movie. */
    method HandleWatchlistToggle(entry: Entry, reply: Outcome<()>) returns (sent: WatchlistCall)
      modifies this
      ensures sent == ToggleCall(entry)
      ensures movies == AfterToggle(old(movies), entry, reply.Succeeded?)
      ensures isLoading == old(isLoading) && page == old(page) && hasMore == old(hasMore)
      ensures totalCount == old(totalCount) && filters == old(filters) && debouncedSearch == old(debouncedSearch)
    {
      sent := ToggleCall(entry);
      if reply.Succeeded? {
        movies := SetStatus(movies, entry.movie.tmdbId, WatchlistToggle(entry.status).next);
      }
    }

    /** `handleWatchedToggle`: PATCH to watched; on success every entry of that movie shows watched. */
    method HandleWatchedToggle(entry: Entry, reply: Outcome<()>) returns (patched: int)
      modifies this
      ensures patched == entry.movie.tmdbId
      ensures movies == if reply.Succeeded? then SetStatus(old(movies), entry.movie.tmdbId, Some("watched")) else old(movies)
      ensures isLoading == old(isLoading) && page == old(page) && hasMore == old(hasMore)
      ensures totalCount == old(totalCount) && filters == old(filters) && debouncedSearch == old(debouncedSearch)
    {
      patched := entry.movie.tmdbId;
      if reply.Succeeded? {
        movies := SetStatus(movies, entry.movie.tmdbId, Some("watched"));
      }
    }

    /** `handleFavoriteToggle`: adds a movie that is not a favourite, removes one that is; on success the flag flips on its entries. */
    method HandleFavoriteToggle(movie: MovieInfo, reply: Outcome<()>) returns (adding: bool)
      modifies this
      ensures adding == !movie.isFavorite
      ensures movies == if reply.Succeeded? then SetFavorite(old(movies), movie.tmdbId, !movie.isFavorite) else old(movies)
      ensures isLoading == old(isLoading) && page == old(page) && hasMore == old(hasMore)
      ensures totalCount == old(totalCount) && filters == old(filters) && debouncedSearch == old(debouncedSearch)
    {
      adding := !movie.isFavorite;
      if reply.Succeeded? {
        movies := SetFavorite(movies, movie.tmdbId, adding);
      }
    }
  }
}
