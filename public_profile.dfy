/**
 * Another user's profile page: loading the profile (or learning that it is private), the
 * screen the page then shows, the follow button and its counter, and the movie strips
 * that show at most five titles with a "See all" link for longer lists.
 */
module PublicProfile {
  import opened JsValues
  import opened Api

  /** The parts of `/auth/user/<name>/` the page keeps. */
  datatype Profile = Profile(username: string, isFollowing: bool, followerCount: int)

  /** The follow flag and the follower count shown on the page. */
  datatype FollowState = FollowState(isFollowing: bool, followerCount: int)

  /** The page's answer to a follow response: "followed" and "unfollowed" move the count by one, anything else changes nothing. */
  function AfterFollow(s: FollowState, status: string): (r: FollowState)
    ensures status == "followed" ==> r == FollowState(true, s.followerCount + 1)
    ensures status == "unfollowed" ==> r == FollowState(false, s.followerCount - 1)
    ensures status != "followed" && status != "unfollowed" ==> r == s
  {
    if status == "followed" then FollowState(true, s.followerCount + 1)
    else if status == "unfollowed" then FollowState(false, s.followerCount - 1)
    else s
  }

  /** Following and then unfollowing (in either order) brings the count back, and the flag reflects the last answer. */
  lemma FollowUnfollowRestores(s: FollowState)
    ensures AfterFollow(AfterFollow(s, "followed"), "unfollowed") == s.(isFollowing := false)
    ensures AfterFollow(AfterFollow(s, "unfollowed"), "followed") == s.(isFollowing := true)
  {
  }

  /** The text the private-profile error carries in `detail`. */
  const PrivateDetail := "This profile is private"

  /** What the page renders. */
  datatype Screen = LoadingScreen | ErrorScreen(message: string) | NotFound | PrivateNotice | ProfileScreen

  /** The order of the page's early returns: loading, then an error, then no user, then private, then the profile. */
  function ScreenFor(isLoading: bool, error: Option<string>, user: Option<Profile>, isPrivate: bool): (sc: Screen)
    ensures sc == LoadingScreen <==> isLoading
    ensures sc.ErrorScreen? <==> !isLoading && Truthy(error)
    ensures sc == ProfileScreen <==> !isLoading && !Truthy(error) && user.Some? && !isPrivate
    ensures sc == PrivateNotice <==> !isLoading && !Truthy(error) && isPrivate
  {
    if isLoading then LoadingScreen
    else if Truthy(error) then ErrorScreen(error.value)
    else if user.None? && !isPrivate then NotFound
    else if isPrivate then PrivateNotice
    else ProfileScreen
  }

  /** The follow button is shown to a signed-in visitor looking at someone else's profile. */
  function FollowButtonShown(currentUser: Option<string>, username: string): (shown: bool)
    ensures shown <==> currentUser.Some? && currentUser.value != username
  {
    currentUser.Some? && currentUser.value != username
  }

  /** What a movie strip renders. */
  datatype Strip<T> = EmptyStrip | Grid(items: seq<T>, seeAll: bool)

  /** `MovieList`: the empty state for a missing or empty list, else the first five items and the link when the count is above five. */
  function StripFor<T>(movies: Option<seq<T>>, count: int): (st: Strip<T>)
    ensures st.EmptyStrip? <==> movies.None? || movies.value == []
    ensures st.Grid? ==> |st.items| == (if |movies.value| < 5 then |movies.value| else 5)
    ensures st.Grid? ==> st.items == movies.value[..|st.items|]
    ensures st.Grid? ==> (st.seeAll <==> count > 5)
  {
    if movies.None? || movies.value == [] then EmptyStrip
    else Grid(if |movies.value| < 5 then movies.value else movies.value[..5], count > 5)
  }

  /** A strip never shows more than five items, and shows all of a list of five or fewer. */
  lemma StripBounds<T>(movies: seq<T>, count: int)
    requires movies != []
    ensures |StripFor(Some(movies), count).items| <= 5
    ensures |movies| <= 5 ==> StripFor(Some(movies), count).items == movies
    ensures |movies| > 5 ==> StripFor(Some(movies), count).items == movies[..5]
  {
    var st := StripFor(Some(movies), count);
    if |movies| <= 5 {
      assert movies[..|movies|] == movies;
    }
  }

  class ProfileView {
    const username: string
    var user: Option<Profile>
    var isLoading: bool
    var error: Option<string>
    var isPrivate: bool
    var follow: FollowState

    constructor (username: string)
      ensures this.username == username && user.None? && isLoading && error.None? && !isPrivate
      ensures follow == FollowState(false, 0)
    {
      this.username := username;
      user := None;
      isLoading := true;
      error := None;
      isPrivate := false;
      follow := FollowState(false, 0);
    }

    /** The rendered screen. */
    function Current(): Screen
      reads this
    {
      ScreenFor(isLoading, error, user, isPrivate)
    }

    /**
     * `fetchUserProfile`: the profile and its follow state on success; on failure the page
     * is marked private when the detail says so, and otherwise shows the server's message
     * or the fallback.
     */
    method Load(reply: Outcome<Profile>)
      modifies this
      ensures !isLoading
      ensures reply.Succeeded? ==>
        user == Some(reply.value) && follow == FollowState(reply.value.isFollowing, reply.value.followerCount)
        && error == old(error) && isPrivate == old(isPrivate)
      ensures reply.Failed? && DetailOf(reply.error) == Some(PrivateDetail) ==>
        isPrivate && user == old(user) && error == old(error) && follow == old(follow)
      ensures reply.Failed? && DetailOf(reply.error) != Some(PrivateDetail) ==>
        error == Some(MessageOr(reply.error, "Failed to load user profile"))
        && isPrivate == old(isPrivate) && user == old(user) && follow == old(follow)
    {
      match reply {
        case Succeeded(p) =>
          user := Some(p);
          follow := FollowState(p.isFollowing, p.followerCount);
        case Failed(e) =>
          if DetailOf(e) == Some(PrivateDetail) {
            isPrivate := true;
          } else {
            error := Some(MessageOr(e, "Failed to load user profile"));
          }
      }
      isLoading := false;
    }

    /** `handleFollow`: the server's status moves the flag and the counter; a failure is only logged. */
    method HandleFollow(reply: Outcome<string>)
      modifies this
      ensures follow == if reply.Succeeded? then AfterFollow(old(follow), reply.value) else old(follow)
      ensures user == old(user) && isLoading == old(isLoading) && error == old(error) && isPrivate == old(isPrivate)
    {
      if reply.Succeeded? {
        follow := AfterFollow(follow, reply.value);
      }
    }
  }

  /**
   * What the first load shows: the profile on success, the private notice when the
   * detail says the profile is private, and otherwise an error screen with the message
   * or the fallback.
   */
  method FirstLoad(username: string, reply: Outcome<Profile>) returns (sc: Screen)
    ensures reply.Succeeded? <==> sc == ProfileScreen
    ensures sc == PrivateNotice <==> reply.Failed? && DetailOf(reply.error) == Some(PrivateDetail)
    ensures reply.Failed? && DetailOf(reply.error) != Some(PrivateDetail) ==>
      sc == ErrorScreen(MessageOr(reply.error, "Failed to load user profile"))
  {
    var view := new ProfileView(username);
    view.Load(reply);
    sc := view.Current();
  }
}
