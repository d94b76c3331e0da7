/**
 * The movie page: loading the movie and its status, and the watchlist and watched
 * toggles, which have no in-flight guard of their own (the buttons are disabled while a
 * request runs) and only log a failure. The favourite button flips a local flag and
 * sends nothing.
 */
module MovieDetail {
  import opened JsValues
  import opened Api
  import opened WatchStatus

  /** The parts of `response.data` the page keeps. */
  datatype Movie = Movie(title: string, status: Status)

  class MovieView {
    var movie: Option<Movie>
    var status: Status
    var isLoading: bool
    var error: Option<string>
    var isInFavorites: bool
    var isLoadingWatchlist: bool

    constructor ()
      ensures movie.None? && status.None? && isLoading && error.None?
      ensures !isInFavorites && !isLoadingWatchlist
    {
      movie, status := None, None;
      isLoading := true;
      error := None;
      isInFavorites, isLoadingWatchlist := false, false;
    }

    /** `fetchMovieDetails`: the status is taken from the response; a failure sets the fixed load error. */
    method Load(reply: Outcome<Movie>)
      modifies this
      ensures !isLoading
      ensures reply.Succeeded? ==> movie == Some(reply.value) && status == reply.value.status && error == old(error)
      ensures reply.Failed? ==> movie == old(movie) && status == old(status) && error == Some("Failed to load movie details")
      ensures isInFavorites == old(isInFavorites) && isLoadingWatchlist == old(isLoadingWatchlist)
    {
      match reply {
        case Succeeded(m) =>
          movie := Some(m);
          status := m.status;
        case Failed(_) =>
          error := Some("Failed to load movie details");
      }
      isLoading := false;
    }

    /** `handleWatchlistToggle`. */
    method HandleWatchlistToggle(reply: Outcome<()>) returns (sent: Call)
      modifies this
      ensures sent == WatchlistToggle(old(status)).call
      ensures status == Settle(old(status), WatchlistToggle(old(status)), reply.Succeeded?)
      ensures !isLoadingWatchlist
      ensures movie == old(movie) && error == old(error) && isLoading == old(isLoading)
      ensures isInFavorites == old(isInFavorites)
    {
      isLoadingWatchlist := true;
      var t := WatchlistToggle(status);
      sent := t.call;
      if reply.Succeeded? {
        status := t.next;
      }
      isLoadingWatchlist := false;
    }

    /** `handleWatchedToggle`: marks as watched by POST. */
    method HandleWatchedToggle(reply: Outcome<()>) returns (sent: Call)
      modifies this
      ensures sent == WatchedToggle(old(status), false).call
      ensures status == Settle(old(status), WatchedToggle(old(status), false), reply.Succeeded?)
      ensures !isLoadingWatchlist
      ensures movie == old(movie) && error == old(error) && isLoading == old(isLoading)
      ensures isInFavorites == old(isInFavorites)
    {
      isLoadingWatchlist := true;
      var t := WatchedToggle(status, false);
      sent := t.call;
      if reply.Succeeded? {
        status := t.next;
      }
      isLoadingWatchlist := false;
    }

    /** `handleFavoriteToggle`: a local flip, nothing is sent. */
    method HandleFavoriteToggle()
      modifies this
      ensures isInFavorites == !old(isInFavorites)
      ensures movie == old(movie) && status == old(status) && error == old(error)
      ensures isLoading == old(isLoading) && isLoadingWatchlist == old(isLoadingWatchlist)
    {
      isInFavorites := !isInFavorites;
    }
  }
}
