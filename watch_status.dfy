/**
 * The watch-status machine the TV show and movie pages share. The status is whatever
 * `watchlist_status` the server sent: absent, "watchlist", "watched", or any other text.
 * The watchlist toggle adds when the status is falsy and deletes otherwise; the watched
 * toggle marks as watched unless already watched, and deletes then. The page shows one
 * primary button chosen by the status, plus a remove button on the watchlist.
 */
module WatchStatus {
  import opened JsValues

  /** `watchlist_status`. */
  type Status = Option<string>

  /** The request a toggle sends. */
  datatype Call = Post(status: string) | Patch(status: string) | Delete

  /** A toggle: the request it sends and the status it sets when the request succeeds. */
  datatype Toggle = Toggle(call: Call, next: Status)

  /** `handleWatchlistToggle`: a falsy status is added to the watchlist, any other is deleted. */
  function WatchlistToggle(s: Status): (t: Toggle)
    ensures !Truthy(s) ==> t == Toggle(Post("watchlist"), Some("watchlist"))
    ensures Truthy(s) ==> t == Toggle(Delete, None)
  {
    if !Truthy(s) then Toggle(Post("watchlist"), Some("watchlist")) else Toggle(Delete, None)
  }

  /**
   * `handleWatchedToggle`: anything but "watched" is marked watched (by PATCH on the TV
   * page, by POST on the movie page); "watched" is deleted.
   */
  function WatchedToggle(s: Status, viaPatch: bool): (t: Toggle)
    ensures s != Some("watched") ==> t.next == Some("watched") && t.call == (if viaPatch then Patch("watched") else Post("watched"))
    ensures s == Some("watched") ==> t == Toggle(Delete, None)
  {
    if s != Some("watched") then Toggle(if viaPatch then Patch("watched") else Post("watched"), Some("watched"))
    else Toggle(Delete, None)
  }

  /** The status once the request has settled: the toggle's target on success, unchanged on failure. */
  function Settle(s: Status, t: Toggle, succeeded: bool): (r: Status)
    ensures succeeded ==> r == t.next
    ensures r == s || r == t.next
    ensures r != s ==> succeeded
  {
    if succeeded then t.next else s
  }

  /** The primary action button. */
  datatype Primary = AddToWatchlist | MarkAsWatched | WatchedBadge

  /** The buttons shown for a status. */
  datatype Buttons = Buttons(primary: Primary, removeShown: bool)

  /** Button selection: "watched" shows the watched badge, "watchlist" shows mark-as-watched and remove, any other status shows add. */
  function ButtonsFor(s: Status): (b: Buttons)
    ensures b.primary == WatchedBadge <==> s == Some("watched")
    ensures b.primary == MarkAsWatched <==> s == Some("watchlist")
    ensures b.primary == AddToWatchlist <==> s != Some("watched") && s != Some("watchlist")
    ensures b.removeShown <==> s == Some("watchlist")
  {
    Buttons(
      if s != Some("watched") then (if s != Some("watchlist") then AddToWatchlist else MarkAsWatched) else WatchedBadge,
      s == Some("watchlist"))
  }

  /**
   * The toggle a click on the primary button runs: add runs the watchlist toggle, the
   * other two the watched toggle. The badge deletes, mark-as-watched marks watched, and
   * whatever the status, a successful click changes it.
   */
  function PrimaryClick(s: Status, viaPatch: bool): (t: Toggle)
    ensures s == Some("watched") ==> t == Toggle(Delete, None)
    ensures s == Some("watchlist") ==> t == Toggle(if viaPatch then Patch("watched") else Post("watched"), Some("watched"))
    ensures s != Some("watched") && s != Some("watchlist") ==> t == WatchlistToggle(s)
    ensures t.next != s
  {
    match ButtonsFor(s).primary
    case AddToWatchlist => WatchlistToggle(s)
    case MarkAsWatched => WatchedToggle(s, viaPatch)
    case WatchedBadge => WatchedToggle(s, viaPatch)
  }

  /** The three statuses the pages themselves set. */
  predicate Canonical(s: Status) {
    s == None || s == Some("watchlist") || s == Some("watched")
  }

  /**
   * Clicking the primary button through its successful requests cycles through the three
   * statuses: absent, then on the watchlist, then watched, then absent again; the remove
   * button takes a watchlisted title back to absent.
   */
  lemma {:induction false} PrimaryCycle(viaPatch: bool)
    ensures PrimaryClick(None, viaPatch).next == Some("watchlist")
    ensures PrimaryClick(Some("watchlist"), viaPatch).next == Some("watched")
    ensures PrimaryClick(Some("watched"), viaPatch).next == None
    ensures ButtonsFor(Some("watchlist")).removeShown && WatchlistToggle(Some("watchlist")).next == None
  {
    assert ButtonsFor(None).primary == AddToWatchlist;
    assert ButtonsFor(Some("watchlist")).primary == MarkAsWatched;
    assert ButtonsFor(Some("watched")).primary == WatchedBadge;
  }

  /** Whatever the click and whatever the outcome, a page that starts in one of the three statuses stays in them. */
  lemma CanonicalPreserved(s: Status, viaPatch: bool, succeeded: bool)
    requires Canonical(s)
    ensures Canonical(Settle(s, PrimaryClick(s, viaPatch), succeeded))
    ensures Canonical(Settle(s, WatchlistToggle(s), succeeded))
  {
  }

  /** A failed request leaves the status as it was. */
  lemma FailureKeepsStatus(s: Status, viaPatch: bool)
    ensures Settle(s, WatchlistToggle(s), false) == s
    ensures Settle(s, WatchedToggle(s, viaPatch), false) == s
  {
  }

  /**
   * A status outside the three (one the server may send) shows the add button, yet that
   * button's request is a DELETE and it clears the status; an empty status is falsy and
   * is added like an absent one.
   */
  lemma UnknownStatusAddDeletes(s: Status, viaPatch: bool)
    requires Truthy(s) && !Canonical(s)
    ensures ButtonsFor(s).primary == AddToWatchlist
    ensures PrimaryClick(s, viaPatch) == Toggle(Delete, None)
    ensures PrimaryClick(Some(""), viaPatch) == Toggle(Post("watchlist"), Some("watchlist"))
  {
  }
}
