/**
 * The reviews page of a movie: the star display, the rating filter buttons, the review
 * form and its submit guard, a comment's reply box, and the page's comment list with its
 * paging, deletion and the placing of a new review at the top.
 */
module Comments {
  import opened JsValues
  import opened Api
  import opened Collections

  /** A comment as the server returns it. */
  datatype Comment = Comment(id: int, content: string, rating: int)

  /** `RatingStars`: star i (1 to 5) is filled exactly when i is at most the rating. */
  function Stars(rating: int): (filled: seq<bool>)
    ensures |filled| == 5
    ensures forall k :: 0 <= k < 5 ==> filled[k] == (k + 1 <= rating)
  {
    [1 <= rating, 2 <= rating, 3 <= rating, 4 <= rating, 5 <= rating]
  }

  function CountFilled(s: seq<bool>): (n: nat)
    ensures n <= |s|
  {
    if s == [] then 0 else (if s[0] then 1 else 0) + CountFilled(s[1..])
  }

  /** The filled stars come first, and there are as many as the rating clamped to 0..5. */
  lemma StarsShape(rating: int)
    ensures forall i, j :: 0 <= i <= j < 5 && Stars(rating)[j] ==> Stars(rating)[i]
    ensures CountFilled(Stars(rating)) == if rating <= 0 then 0 else if rating >= 5 then 5 else rating
  {
    var s := Stars(rating);
    var b := (x: bool) => if x then 1 else 0;
    assert s[1..][1..][1..][1..] == [5 <= rating];
    assert CountFilled(s[1..][1..][1..]) == b(4 <= rating) + b(5 <= rating);
    assert CountFilled(s[1..]) == b(2 <= rating) + b(3 <= rating) + b(4 <= rating) + b(5 <= rating);
    assert CountFilled(s) == b(1 <= rating) + b(2 <= rating) + b(3 <= rating) + b(4 <= rating) + b(5 <= rating);
  }

  /** A click on star i reports i, and only on an interactive display. */
  function StarClick(i: int, interactive: bool): (reported: Option<int>)
    ensures reported.Some? <==> interactive
    ensures reported.Some? ==> reported.value == i
  {
    if interactive then Some(i) else None
  }

  /** A rating filter button. */
  datatype RatingOption = RatingOption(value: int, text: string)

  /** The rating filter buttons: values 0 to 4, the first labelled "All", the others with their number and a star. */
  function RatingOptions(): (opts: seq<RatingOption>)
    ensures |opts| == 5
    ensures forall k :: 0 <= k < 5 ==> opts[k].value == k
    ensures forall k :: 0 <= k < 5 ==> (opts[k].text == "All" <==> k == 0)
    ensures forall k :: 1 <= k < 5 ==> opts[k].text == Decimal(k) + "★"
  {
    seq(5, (k: int) requires 0 <= k < 5 => RatingOption(k, if k == 0 then "All" else Decimal(k) + "★"))
  }

  /** Exactly one filter button is highlighted when the selected rating is 0 to 4, and none otherwise. */
  lemma OneActiveOption(selected: int)
    ensures 0 <= selected < 5 ==> RatingOptions()[selected].value == selected
    ensures forall k, l :: 0 <= k < 5 && 0 <= l < 5 && RatingOptions()[k].value == selected && RatingOptions()[l].value == selected ==> k == l
    ensures (selected < 0 || selected >= 5) ==> forall k :: 0 <= k < 5 ==> RatingOptions()[k].value != selected
  {
  }

  /**
   * The review form's guard, `comment.trim() && rating !== 0 && !isSubmitting`; the Post
   * button is enabled exactly then. It refuses whitespace-only text, a zero rating and a
   * second submit.
   */
  function CanSubmit(comment: string, rating: int, isSubmitting: bool): (ok: bool)
    ensures ok <==> !AllWhitespace(comment) && rating != 0 && !isSubmitting
  {
    TrimEmptyIff(comment);
    Trim(comment) != "" && rating != 0 && !isSubmitting
  }

  /** `CommentForm`. */
  class CommentForm {
    var comment: string
    var rating: int
    var isSubmitting: bool

    constructor ()
      ensures comment == "" && rating == 0 && !isSubmitting
    {
      comment, rating, isSubmitting := "", 0, false;
    }

    /** A click on star i of the form's interactive stars sets the rating to i. */
    method ClickStar(i: int)
      modifies this
      ensures rating == i && comment == old(comment) && isSubmitting == old(isSubmitting)
    {
      var r := StarClick(i, true);
      rating := r.value;
    }

    /** `handleSubmit`: hands text and rating on only when the guard holds, and is no longer submitting afterwards. */
    method HandleSubmit() returns (submitted: Option<(string, int)>)
      modifies this
      ensures old(CanSubmit(comment, rating, isSubmitting)) <==> submitted.Some?
      ensures submitted.Some? ==> submitted.value == (old(comment), old(rating)) && !isSubmitting
      ensures submitted.None? ==> isSubmitting == old(isSubmitting)
      ensures comment == old(comment) && rating == old(rating)
    {
      if !CanSubmit(comment, rating, isSubmitting) {
        return None;
      }
      isSubmitting := true;
      submitted := Some((comment, rating));
      isSubmitting := false;
    }
  }

  /** The body of a reply: it is filed under the comment, with the fixed rating 1. */
  datatype ReplyBody = ReplyBody(content: string, parent: int, movie: int, rating: int)

  /** A reply's like response. */
  datatype LikeReply = LikeReply(liked: bool, likesCount: int)

  /** `CommentItem`: the replies shown under a comment and its reply box. */
  class CommentItem {
    const id: int
    var localResponses: seq<Comment>
    var responseText: string
    var isSubmitting: bool
    var showResponseInput: bool
    var showResponses: bool
    var isLiked: bool
    var likes: int

    constructor (id: int, responses: seq<Comment>, likesCount: int, liked: bool)
      ensures this.id == id && localResponses == responses && responseText == "" && !isSubmitting
      ensures !showResponseInput && !showResponses && isLiked == liked && likes == likesCount
    {
      this.id := id;
      localResponses := responses;
      responseText := "";
      isSubmitting := false;
      showResponseInput, showResponses := false, false;
      isLiked, likes := liked, likesCount;
    }

    /**
     * `handleSubmitResponse`: blank text or a submit in flight sends nothing; otherwise the
     * reply is sent, and on success appended at the end of the replies, the box cleared
     * and closed and the replies shown. The body reads the page's movie id, so while the
     * movie is not loaded (`movie` is `null`) the read throws before anything is sent and
     * only the submitting flag is set and cleared again.
     */
    method HandleSubmitResponse(movie: Option<int>, reply: Outcome<Comment>) returns (sent: Option<ReplyBody>)
      modifies this
      ensures (Trim(old(responseText)) != "" && !old(isSubmitting) && movie.Some?) <==> sent.Some?
      ensures movie.None? ==> sent.None?
      ensures sent.None? ==>
        localResponses == old(localResponses) && responseText == old(responseText)
        && isSubmitting == old(isSubmitting) && showResponseInput == old(showResponseInput) && showResponses == old(showResponses)
      ensures sent.Some? ==> sent.value == ReplyBody(old(responseText), id, movie.value, 1) && !isSubmitting
      ensures sent.Some? && reply.Succeeded? ==>
        localResponses == old(localResponses) + [reply.value] && responseText == ""
        && !showResponseInput && showResponses
      ensures sent.Some? && reply.Failed? ==>
        localResponses == old(localResponses) && responseText == old(responseText)
        && showResponseInput == old(showResponseInput) && showResponses == old(showResponses)
      ensures isLiked == old(isLiked) && likes == old(likes)
    {
      if Trim(responseText) == "" || isSubmitting {
        return None;
      }
      isSubmitting := true;
      if movie.None? {
        isSubmitting := false;
        return None;
      }
      sent := Some(ReplyBody(responseText, id, movie.value, 1));
      if reply.Succeeded? {
        localResponses := localResponses + [reply.value];
        responseText := "";
        showResponseInput := false;
        showResponses := true;
      }
      isSubmitting := false;
    }

    /** `handleLike`: the server's answer replaces both the flag and the count; a failure changes nothing. */
    method HandleLike(reply: Outcome<LikeReply>)
      modifies this
      ensures reply.Succeeded? ==> isLiked == reply.value.liked && likes == reply.value.likesCount
      ensures reply.Failed? ==> isLiked == old(isLiked) && likes == old(likes)
      ensures localResponses == old(localResponses) && responseText == old(responseText)
      ensures isSubmitting == old(isSubmitting) && showResponseInput == old(showResponseInput) && showResponses == old(showResponses)
    {
      if reply.Succeeded? {
        isLiked, likes := reply.value.liked, reply.value.likesCount;
      }
    }
  }

  /** Deleting a comment: exactly the comments with that id go, the rest keep their order. */
  function WithoutComment(comments: seq<Comment>, id: int): (r: seq<Comment>)
    ensures forall c :: c in r <==> c in comments && c.id != id
    ensures |r| <= |comments|
    ensures (forall i :: 0 <= i < |comments| ==> comments[i].id != id) ==> r == comments
  {
    RemoveWhereSpec(comments, (c: Comment) => c.id, id);
    RemoveWhere(comments, (c: Comment) => c.id, id)
  }

  /** Deletion splits over any split of the list, which is what keeping the order means. */
  lemma WithoutCommentKeepsOrder(xs: seq<Comment>, ys: seq<Comment>, id: int)
    ensures WithoutComment(xs + ys, id) == WithoutComment(xs, id) + WithoutComment(ys, id)
  {
    RemoveWhereSpec(xs + ys, (c: Comment) => c.id, id);
  }

  /** A page of `/movies/<id>/comments/`. */
  datatype CommentsPage = CommentsPage(results: seq<Comment>, next: JsonString)

  /** The query of a comments fetch. */
  datatype Query = Query(page: nat, rating: nat, sortBy: string)

  /** The body of a new review. */
  datatype ReviewBody = ReviewBody(content: string, rating: int, movie: int)

  /** The reviews page. */
  class CommentsView {
    var movie: Option<int>
    var comments: seq<Comment>
    var isLoading: bool
    var page: nat
    var hasMore: bool
    var selectedRating: nat
    var sortBy: string
    var showCommentForm: bool

    constructor ()
      ensures movie.None? && comments == [] && isLoading && page == 1 && hasMore
      ensures selectedRating == 0 && sortBy == "date" && !showCommentForm
    {
      movie := None;
      comments := [];
      isLoading := true;
      page := 1;
      hasMore := true;
      selectedRating := 0;
      sortBy := "date";
      showCommentForm := false;
    }

    /** `fetchMovie`: the movie's id once loaded; a failure is only logged. */
    method LoadMovie(reply: Outcome<int>)
      modifies this
      ensures movie == if reply.Succeeded? then Some(reply.value) else old(movie)
      ensures comments == old(comments) && isLoading == old(isLoading) && page == old(page) && hasMore == old(hasMore)
      ensures selectedRating == old(selectedRating) && sortBy == old(sortBy) && showCommentForm == old(showCommentForm)
    {
      if reply.Succeeded? {
        movie := Some(reply.value);
      }
    }

    /** `fetchComments` for the current page, rating and sort: page 1 replaces the list, later pages append. */
    method FetchComments(reply: Outcome<CommentsPage>) returns (query: Query)
      modifies this
      ensures query == Query(old(page), old(selectedRating), old(sortBy))
      ensures !isLoading
      ensures reply.Succeeded? ==> comments == MergePage(old(comments), old(page), reply.value.results) && hasMore == (reply.value.next != Null)
      ensures reply.Failed? ==> comments == old(comments) && hasMore == old(hasMore)
      ensures movie == old(movie) && page == old(page) && selectedRating == old(selectedRating)
      ensures sortBy == old(sortBy) && showCommentForm == old(showCommentForm)
    {
      isLoading := true;
      query := Query(page, selectedRating, sortBy);
      if reply.Succeeded? {
        comments := MergePage(comments, page, reply.value.results);
        hasMore := reply.value.next != Null;
      }
      isLoading := false;
    }

    /** The last comment's observer callback: the page advances only when the comment is visible and there is more. */
    method OnLastCommentVisible(isIntersecting: bool)
      modifies this
      ensures page == if isIntersecting && old(hasMore) then old(page) + 1 else old(page)
      ensures comments == old(comments) && hasMore == old(hasMore) && isLoading == old(isLoading)
      ensures selectedRating == old(selectedRating) && sortBy == old(sortBy)
      ensures movie == old(movie) && showCommentForm == old(showCommentForm)
    {
      if isIntersecting && hasMore {
        page := page + 1;
      }
    }

    /**
     * A rating filter button: the rating is set, and the fetch effect, which depends on the
     * rating, runs again for the current page only when the rating actually changed; the
     * page is not reset. Clicking the active button fetches nothing and changes nothing.
     */
    method SelectRating(rating: nat, reply: Outcome<CommentsPage>) returns (query: Option<Query>)
      modifies this
      ensures query.Some? <==> rating != old(selectedRating)
      ensures query.Some? ==> query.value == Query(old(page), rating, old(sortBy))
      ensures selectedRating == rating && page == old(page)
      ensures query.Some? && reply.Succeeded? ==>
        comments == MergePage(old(comments), old(page), reply.value.results) && hasMore == (reply.value.next != Null)
      ensures query.None? || reply.Failed? ==> comments == old(comments) && hasMore == old(hasMore)
      ensures query.Some? ==> !isLoading
      ensures query.None? ==> isLoading == old(isLoading)
      ensures movie == old(movie) && sortBy == old(sortBy) && showCommentForm == old(showCommentForm)
    {
      if rating == selectedRating {
        return None;
      }
      selectedRating := rating;
      var q := FetchComments(reply);
      query := Some(q);
    }

    /** `handleDeleteComment`: on success the comments with that id are gone. */
    method HandleDeleteComment(id: int, reply: Outcome<()>)
      modifies this
      ensures comments == if reply.Succeeded? then WithoutComment(old(comments), id) else old(comments)
      ensures movie == old(movie) && isLoading == old(isLoading) && page == old(page) && hasMore == old(hasMore)
      ensures selectedRating == old(selectedRating) && sortBy == old(sortBy) && showCommentForm == old(showCommentForm)
    {
      if reply.Succeeded? {
        comments := WithoutComment(comments, id);
      }
    }

    /**
     * `handleSubmitComment`: the new review goes to the top of the list and the form closes;
     * a failure, including the movie not being loaded yet (reading its id throws before
     * anything is sent), shows the toast.
     */
    method HandleSubmitComment(content: string, rating: int, reply: Outcome<Comment>)
      returns (sent: Option<ReviewBody>, toast: Option<string>)
      modifies this
      ensures old(movie).None? ==> sent.None?
      ensures old(movie).Some? ==> sent == Some(ReviewBody(content, rating, old(movie).value))
      ensures sent.Some? && reply.Succeeded? ==>
        comments == [reply.value] + old(comments) && !showCommentForm && toast.None?
      ensures !(sent.Some? && reply.Succeeded?) ==>
        comments == old(comments) && showCommentForm == old(showCommentForm)
        && toast == Some("Failed to post your review. Please try again.")
      ensures movie == old(movie) && isLoading == old(isLoading) && page == old(page) && hasMore == old(hasMore)
      ensures selectedRating == old(selectedRating) && sortBy == old(sortBy)
    {
      if movie.None? {
        return None, Some("Failed to post your review. Please try again.");
      }
      sent := Some(ReviewBody(content, rating, movie.value));
      match reply {
        case Succeeded(c) =>
          showCommentForm := false;
          comments := [c] + comments;
          toast := None;
        case Failed(_) =>
          toast := Some("Failed to post your review. Please try again.");
      }
    }
  }
}
