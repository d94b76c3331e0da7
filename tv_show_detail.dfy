/**
 * The TV show page: loading the show, the watchlist, watched and favourite toggles with
 * their in-flight guards, the review dialog opened after marking as watched, and the
 * back button's label. Each toggle clears the error first, ignores a click while its own
 * request is in flight, and always lowers its loading flag when the request settles.
 */
module TvShowDetail {
  import opened JsValues
  import opened Api
  import opened WatchStatus

  /** The parts of `response.data` the handlers read. */
  datatype Show = Show(status: Status, isFavorite: bool)

  /** The favourite request. */
  datatype FavoriteCall = AddFavorite | RemoveFavorite

  /** The review request's body. */
  datatype Review = Review(content: string, rating: int)

  /** `getBackButtonText`, on `location.state?.from`. */
  function BackButtonText(from: Option<string>): (text: string)
    ensures from == Some("search") <==> text == "Back to Search"
    ensures from == Some("profile") <==> text == "Back to Profile"
    ensures from != Some("search") && from != Some("profile") <==> text == "Back"
  {
    if from == Some("search") then "Back to Search"
    else if from == Some("profile") then "Back to Profile"
    else "Back"
  }

  /** The review dialog's submit guard: a zero rating is refused with a notice and nothing is sent. */
  method ReviewSubmit(comment: string, rating: int) returns (sent: Option<Review>, notice: Option<string>)
    ensures rating == 0 <==> sent.None?
    ensures rating == 0 ==> notice == Some("Please select a rating")
    ensures rating != 0 ==> sent == Some(Review(comment, rating)) && notice.None?
  {
    if rating == 0 {
      return None, Some("Please select a rating");
    }
    return Some(Review(comment, rating)), None;
  }

  class ShowView {
    var show: Show
    var isLoading: bool
    var error: Option<string>
    var isLoadingWatchlist: bool
    var isLoadingFavorite: bool
    var showCommentModal: bool
    var isSubmittingComment: bool

    constructor ()
      ensures isLoading && error.None? && !isLoadingWatchlist && !isLoadingFavorite
      ensures !showCommentModal && !isSubmittingComment
    {
      show := Show(None, false);
      isLoading := true;
      error := None;
      isLoadingWatchlist, isLoadingFavorite := false, false;
      showCommentModal, isSubmittingComment := false, false;
    }

    /** `fetchShowDetails`: the show on success, the server's message or the fallback on failure. */
    method Load(reply: Outcome<Show>)
      modifies this
      ensures !isLoading
      ensures reply.Succeeded? ==> show == reply.value && error.None?
      ensures reply.Failed? ==>
        show == old(show) && error == Some(MessageOr(reply.error, "Failed to load TV show details. Please try again later."))
      ensures isLoadingWatchlist == old(isLoadingWatchlist) && isLoadingFavorite == old(isLoadingFavorite)
      ensures showCommentModal == old(showCommentModal) && isSubmittingComment == old(isSubmittingComment)
    {
      isLoading := true;
      error := None;
      match reply {
        case Succeeded(s) => show := s;
        case Failed(e) => error := Some(MessageOr(e, "Failed to load TV show details. Please try again later."));
      }
      isLoading := false;
    }

    /**
     * The error screen's Try Again button AS WRITTEN. It clears the error and raises the
     * loading flag, then calls `fetchShowDetails`, which is declared inside the load effect
     * and is not in scope in the handler: the call throws, nothing is fetched, and the page
     * is left on the loading skeleton with no request in flight that would lower the flag.
     */
    method TryAgainAsWritten() returns (fetched: bool)
      modifies this
      ensures !fetched && isLoading && error.None? && show == old(show)
      ensures isLoadingWatchlist == old(isLoadingWatchlist) && isLoadingFavorite == old(isLoadingFavorite)
      ensures showCommentModal == old(showCommentModal) && isSubmittingComment == old(isSubmittingComment)
    {
      error := None;
      isLoading := true;
      fetched := false;
    }

    /** Try Again as intended: the show is fetched again and the page settles exactly as after the first load. */
    method TryAgain(reply: Outcome<Show>) returns (fetched: bool)
      modifies this
      ensures fetched && !isLoading
      ensures reply.Succeeded? ==> show == reply.value && error.None?
      ensures reply.Failed? ==>
        show == old(show) && error == Some(MessageOr(reply.error, "Failed to load TV show details. Please try again later."))
      ensures isLoadingWatchlist == old(isLoadingWatchlist) && isLoadingFavorite == old(isLoadingFavorite)
      ensures showCommentModal == old(showCommentModal) && isSubmittingComment == old(isSubmittingComment)
    {
      error := None;
      isLoading := true;
      Load(reply);
      fetched := true;
    }

    /** `handleWatchlistToggle`; a failure is only logged, so the error stays cleared. */
    method HandleWatchlistToggle(reply: Outcome<()>) returns (sent: Option<Call>)
      modifies this
      ensures old(isLoadingWatchlist) ==>
        sent.None? && show == old(show) && error == old(error) && isLoadingWatchlist
      ensures !old(isLoadingWatchlist) ==>
        && sent == Some(WatchlistToggle(old(show).status).call)
        && show == old(show).(status := Settle(old(show).status, WatchlistToggle(old(show).status), reply.Succeeded?))
        && error.None? && !isLoadingWatchlist
      ensures isLoading == old(isLoading) && isLoadingFavorite == old(isLoadingFavorite)
      ensures showCommentModal == old(showCommentModal) && isSubmittingComment == old(isSubmittingComment)
    {
      if isLoadingWatchlist {
        return None;
      }
      isLoadingWatchlist := true;
      error := None;
      var t := WatchlistToggle(show.status);
      sent := Some(t.call);
      if reply.Succeeded? {
        show := show.(status := t.next);
      }
      isLoadingWatchlist := false;
    }

    /**
     * `handleWatchedToggle`: marking as watched opens the review dialog on success; either
     * direction shows the server's message or the fallback on failure.
     */
    method HandleWatchedToggle(reply: Outcome<()>) returns (sent: Option<Call>)
      modifies this
      ensures old(isLoadingWatchlist) ==>
        && sent.None? && show == old(show) && error == old(error)
        && isLoadingWatchlist && showCommentModal == old(showCommentModal)
      ensures !old(isLoadingWatchlist) ==>
        var t := WatchedToggle(old(show).status, true);
        && sent == Some(t.call)
        && show == old(show).(status := Settle(old(show).status, t, reply.Succeeded?))
        && !isLoadingWatchlist
        && (reply.Succeeded? ==> error.None?)
        && (reply.Failed? ==> error == Some(MessageOr(reply.error, "Failed to update watched status. Please try again.")))
        && showCommentModal == (old(showCommentModal) || (reply.Succeeded? && old(show).status != Some("watched")))
      ensures isLoading == old(isLoading) && isLoadingFavorite == old(isLoadingFavorite)
      ensures isSubmittingComment == old(isSubmittingComment)
    {
      if isLoadingWatchlist {
        return None;
      }
      var marking := show.status != Some("watched");
      var t := WatchedToggle(show.status, true);
      isLoadingWatchlist := true;
      error := None;
      sent := Some(t.call);
      match reply {
        case Succeeded(_) =>
          show := show.(status := t.next);
          if marking {
            showCommentModal := true;
          }
        case Failed(e) =>
          error := Some(MessageOr(e, "Failed to update watched status. Please try again."));
      }
      isLoadingWatchlist := false;
    }

    /** `handleFavoriteToggle`: adds when not a favourite, removes otherwise; the flag flips only on success. */
    method HandleFavoriteToggle(reply: Outcome<()>) returns (sent: Option<FavoriteCall>)
      modifies this
      ensures old(isLoadingFavorite) ==>
        sent.None? && show == old(show) && error == old(error) && isLoadingFavorite
      ensures !old(isLoadingFavorite) ==>
        && sent == Some(if old(show).isFavorite then RemoveFavorite else AddFavorite)
        && show == old(show).(isFavorite := if reply.Succeeded? then !old(show).isFavorite else old(show).isFavorite)
        && !isLoadingFavorite
        && (reply.Succeeded? ==> error.None?)
        && (reply.Failed? ==> error == Some(MessageOr(reply.error, "Failed to toggle favorite. Please try again.")))
      ensures isLoading == old(isLoading) && isLoadingWatchlist == old(isLoadingWatchlist)
      ensures showCommentModal == old(showCommentModal) && isSubmittingComment == old(isSubmittingComment)
    {
      if isLoadingFavorite {
        return None;
      }
      isLoadingFavorite := true;
      error := None;
      if !show.isFavorite {
        sent := Some(AddFavorite);
        if reply.Succeeded? {
          show := show.(isFavorite := true);
        }
      } else {
        sent := Some(RemoveFavorite);
        if reply.Succeeded? {
          show := show.(isFavorite := false);
        }
      }
      if reply.Failed? {
        error := Some(MessageOr(reply.error, "Failed to toggle favorite. Please try again."));
      }
      isLoadingFavorite := false;
    }

    /** `handleCommentSubmit`: a posted review closes the dialog; a failure shows the message or the fallback. */
    method HandleCommentSubmit(review: Review, reply: Outcome<()>)
      modifies this
      ensures !isSubmittingComment && show == old(show)
      ensures reply.Succeeded? ==> !showCommentModal && error.None?
      ensures reply.Failed? ==>
        showCommentModal == old(showCommentModal) &&
        error == Some(MessageOr(reply.error, "Failed to post review. Please try again."))
      ensures isLoading == old(isLoading) && isLoadingWatchlist == old(isLoadingWatchlist)
      ensures isLoadingFavorite == old(isLoadingFavorite)
    {
      isSubmittingComment := true;
      error := None;
      match reply {
        case Succeeded(_) => showCommentModal := false;
        case Failed(e) => error := Some(MessageOr(e, "Failed to post review. Please try again."));
      }
      isSubmittingComment := false;
    }
  }

  /**
   * The discrepancy: after a failed load, the Try Again button as written leaves the page
   * loading with nothing fetched, even when the server would now answer, while the
   * intended button shows the show.
   */
  method TryAgainStaysLoading(e: ApiError, show: Show)
    returns (asWrittenLoading: bool, asWrittenFetched: bool, intendedLoading: bool, intendedShow: Show)
    ensures asWrittenLoading && !asWrittenFetched
    ensures !intendedLoading && intendedShow == show
  {
    var page1 := new ShowView();
    page1.Load(Failed(e));
    asWrittenFetched := page1.TryAgainAsWritten();
    asWrittenLoading := page1.isLoading;
    var page2 := new ShowView();
    page2.Load(Failed(e));
    var _ := page2.TryAgain(Succeeded(show));
    intendedLoading, intendedShow := page2.isLoading, page2.show;
  }
}
