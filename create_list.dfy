/**
 * The list editor (create and edit modes): name and description are required once
 * trimmed, both images are required only when creating, at least one movie is required;
 * the multipart payload carries each image only when one was chosen (an empty value
 * when creating without one), and the movie ids in list order. Movies are chosen in a
 * search dialog that searches only from two code units on and disables movies already
 * on the list.
 */
module CreateList {
  import opened JsValues
  import opened Api
  import opened Collections

  /** A movie as the editor keeps it; only `tmdb_id` and the title matter here. */
  datatype Movie = Movie(tmdbId: int, title: string)

  /** A chosen image file. */
  datatype File = File(name: string)

  /** `formData`. */
  datatype Form = Form(
    name: string,
    description: string,
    backdrop: Option<File>,
    thumbnail: Option<File>,
    movies: seq<Movie>)

  function TmdbIdOf(m: Movie): int {
    m.tmdbId
  }

  /** `validateForm`'s new error map; the image checks apply only when creating. */
  function ValidateForm(form: Form, isEditing: bool): (errors: map<string, string>)
    ensures errors.Keys <= {"name", "description", "thumbnail", "backdrop", "movies"}
    ensures "name" in errors <==> AllWhitespace(form.name)
    ensures "description" in errors <==> AllWhitespace(form.description)
    ensures "thumbnail" in errors <==> !isEditing && form.thumbnail.None?
    ensures "backdrop" in errors <==> !isEditing && form.backdrop.None?
    ensures "movies" in errors <==> |form.movies| == 0
    ensures forall k :: k in errors ==> errors[k] != ""
  {
    TrimEmptyIff(form.name);
    TrimEmptyIff(form.description);
    var e0: map<string, string> := map[];
    var e1 := if Trim(form.name) == "" then e0["name" := "List name is required"] else e0;
    var e2 := if Trim(form.description) == "" then e1["description" := "Description is required"] else e1;
    var e3 := if !isEditing && form.thumbnail.None? then e2["thumbnail" := "Please select a thumbnail"] else e2;
    var e4 := if !isEditing && form.backdrop.None? then e3["backdrop" := "Please select a backdrop"] else e3;
    if |form.movies| == 0 then e4["movies" := "Add at least one movie"] else e4
  }

  /** The form is accepted exactly when every applicable rule holds. */
  lemma ValidIff(form: Form, isEditing: bool)
    ensures |ValidateForm(form, isEditing)| == 0 <==>
      && !AllWhitespace(form.name) && !AllWhitespace(form.description)
      && (isEditing || (form.thumbnail.Some? && form.backdrop.Some?))
      && |form.movies| > 0
  {
    var errors := ValidateForm(form, isEditing);
    if |errors| == 0 {
      assert "name" !in errors && "description" !in errors && "movies" !in errors;
      assert "thumbnail" !in errors && "backdrop" !in errors;
    } else {
      var k :| k in errors;
    }
  }

  /** A value appended to the multipart body. */
  datatype FieldValue =
    | Text(text: string)
    | Upload(file: File)
    | IdList(ids: seq<int>)  // JSON.stringify of the id array, kept as the array

  datatype Entry = Entry(key: string, value: FieldValue)

  /** The values appended under `key`, in order. */
  function ValuesOf(payload: seq<Entry>, key: string): seq<FieldValue> {
    if payload == [] then []
    else (if payload[0].key == key then [payload[0].value] else []) + ValuesOf(payload[1..], key)
  }

  lemma {:induction false} ValuesOfAppend(a: seq<Entry>, b: seq<Entry>, key: string)
    ensures ValuesOf(a + b, key) == ValuesOf(a, key) + ValuesOf(b, key)
  {
    if a == [] {
      assert a + b == b;
    } else {
      var ab := a + b;
      assert ab[0] == a[0] && ab[1..] == a[1..] + b;
      ValuesOfAppend(a[1..], b, key);
    }
  }

  lemma ValuesOfSingle(e: Entry, key: string)
    ensures ValuesOf([e], key) == if e.key == key then [e.value] else []
  {
    assert [e][1..] == [];
  }

  /** `formData.movies.map(movie => movie.tmdb_id)`. */
  function TmdbIds(movies: seq<Movie>): (ids: seq<int>)
    ensures |ids| == |movies|
    ensures forall i :: 0 <= i < |movies| ==> ids[i] == movies[i].tmdbId
  {
    if movies == [] then [] else [movies[0].tmdbId] + TmdbIds(movies[1..])
  }

  /** What an image field contributes: the file when chosen, else "" when creating, else nothing. */
  ghost predicate ImageRule(values: seq<FieldValue>, chosen: Option<File>, isEditing: bool) {
    if chosen.Some? then values == [Upload(chosen.value)]
    else if !isEditing then values == [Text("")]
    else values == []
  }

  /** The rules the multipart body follows. */
  ghost predicate PayloadRules(payload: seq<Entry>, form: Form, isEditing: bool) {
    && ValuesOf(payload, "name") == [Text(form.name)]
    && ValuesOf(payload, "description") == [Text(form.description)]
    && ImageRule(ValuesOf(payload, "thumbnail"), form.thumbnail, isEditing)
    && ImageRule(ValuesOf(payload, "backdrop"), form.backdrop, isEditing)
    && ValuesOf(payload, "movie_ids") == [IdList(TmdbIds(form.movies))]
    && forall i :: 0 <= i < |payload| ==>
         payload[i].key in {"name", "description", "thumbnail", "backdrop", "movie_ids"}
  }

  /** An image field's entries, as `handleSubmit` appends them. */
  method ImageEntries(key: string, chosen: Option<File>, isEditing: bool) returns (entries: seq<Entry>)
    ensures forall k :: k != key ==> ValuesOf(entries, k) == []
    ensures ImageRule(ValuesOf(entries, key), chosen, isEditing)
    ensures forall i :: 0 <= i < |entries| ==> entries[i].key == key
  {
    if chosen.Some? {
      entries := [Entry(key, Upload(chosen.value))];
    } else if !isEditing {
      entries := [Entry(key, Text(""))];
    } else {
      entries := [];
    }
  }

  lemma ValuesOfFour(a: seq<Entry>, b: seq<Entry>, c: seq<Entry>, d: seq<Entry>, key: string)
    ensures ValuesOf(a + b + c + d, key) == ValuesOf(a, key) + ValuesOf(b, key) + ValuesOf(c, key) + ValuesOf(d, key)
  {
    ValuesOfAppend(a, b, key);
    ValuesOfAppend(a + b, c, key);
    ValuesOfAppend(a + b + c, d, key);
  }

  /** The name and description entries. */
  function TextEntries(form: Form): (head: seq<Entry>)
    ensures ValuesOf(head, "name") == [Text(form.name)]
    ensures ValuesOf(head, "description") == [Text(form.description)]
    ensures forall k :: k != "name" && k != "description" ==> ValuesOf(head, k) == []
    ensures forall i :: 0 <= i < |head| ==> head[i].key in {"name", "description"}
  {
    var head := [Entry("name", Text(form.name))] + [Entry("description", Text(form.description))];
    forall k ensures ValuesOf(head, k) == ValuesOf([head[0]], k) + ValuesOf([head[1]], k) {
      ValuesOfAppend([head[0]], [head[1]], k);
    }
    ValuesOfSingle(head[0], "name");
    ValuesOfSingle(head[1], "name");
    ValuesOfSingle(head[0], "description");
    ValuesOfSingle(head[1], "description");
    forall k | k != "name" && k != "description" ensures ValuesOf(head, k) == [] {
      ValuesOfSingle(head[0], k);
      ValuesOfSingle(head[1], k);
    }
    head
  }

  /** The id-list entry. */
  function IdEntry(form: Form): (ids: seq<Entry>)
    ensures ValuesOf(ids, "movie_ids") == [IdList(TmdbIds(form.movies))]
    ensures forall k :: k != "movie_ids" ==> ValuesOf(ids, k) == []
    ensures forall i :: 0 <= i < |ids| ==> ids[i].key == "movie_ids"
  {
    var ids := [Entry("movie_ids", IdList(TmdbIds(form.movies)))];
    ValuesOfSingle(ids[0], "movie_ids");
    forall k | k != "movie_ids" ensures ValuesOf(ids, k) == [] {
      ValuesOfSingle(ids[0], k);
    }
    ids
  }

  /** The multipart body `handleSubmit` builds, one append at a time. */
  method BuildPayload(form: Form, isEditing: bool) returns (payload: seq<Entry>)
    ensures PayloadRules(payload, form, isEditing)
  {
    var head := TextEntries(form);
    var thumb := ImageEntries("thumbnail", form.thumbnail, isEditing);
    var back := ImageEntries("backdrop", form.backdrop, isEditing);
    var ids := IdEntry(form);
    payload := head + thumb + back + ids;
    ValuesOfFour(head, thumb, back, ids, "name");
    ValuesOfFour(head, thumb, back, ids, "description");
    ValuesOfFour(head, thumb, back, ids, "thumbnail");
    ValuesOfFour(head, thumb, back, ids, "backdrop");
    ValuesOfFour(head, thumb, back, ids, "movie_ids");
    assert ValuesOf(payload, "thumbnail") == ValuesOf(thumb, "thumbnail");
    assert ValuesOf(payload, "backdrop") == ValuesOf(back, "backdrop");
    forall i | 0 <= i < |payload|
      ensures payload[i].key in {"name", "description", "thumbnail", "backdrop", "movie_ids"}
    {
      if i < |head| {
        assert payload[i] == head[i];
      } else if i < |head| + |thumb| {
        assert payload[i] == thumb[i - |head|];
      } else if i < |head| + |thumb| + |back| {
        assert payload[i] == back[i - |head| - |thumb|];
      } else {
        assert payload[i] == ids[i - |head| - |thumb| - |back|];
      }
    }
  }

  /** `selectedMovies.some(m => m.tmdb_id === movie.tmdb_id)`: a movie counts as selected when its `tmdb_id` is one of the ids the form will send. */
  function IsSelected(selected: seq<Movie>, movie: Movie): (r: bool)
    ensures r <==> movie.tmdbId in TmdbIds(selected)
  {
    var ids := TmdbIds(selected);
    assert forall i :: 0 <= i < |selected| ==> ids[i] == selected[i].tmdbId;
    exists i | 0 <= i < |selected| :: selected[i].tmdbId == movie.tmdbId
  }

  /** The remove button's update: the movies with that `tmdb_id` go, the rest stay in order. */
  function RemoveMovie(movies: seq<Movie>, movie: Movie): (r: seq<Movie>)
    ensures !IsSelected(r, movie)
    ensures forall m :: m in r <==> m in movies && m.tmdbId != movie.tmdbId
    ensures !IsSelected(movies, movie) ==> r == movies
    ensures |r| <= |movies|
  {
    RemoveWhereSpec(movies, TmdbIdOf, movie.tmdbId);
    var r := RemoveWhere(movies, TmdbIdOf, movie.tmdbId);
    assert forall i :: 0 <= i < |r| ==> r[i] in r;
    r
  }

  /** Removal splits over any split of the list, which is what keeping the order means. */
  lemma RemoveMovieKeepsOrder(xs: seq<Movie>, ys: seq<Movie>, movie: Movie)
    ensures RemoveMovie(xs + ys, movie) == RemoveMovie(xs, movie) + RemoveMovie(ys, movie)
  {
    RemoveWhereSpec(xs + ys, TmdbIdOf, movie.tmdbId);
  }

  /** Choosing a movie not yet on the list and then removing it gives back the list as it was. */
  lemma SelectThenRemove(movies: seq<Movie>, movie: Movie)
    requires !IsSelected(movies, movie)
    ensures RemoveMovie(movies + [movie], movie) == movies
  {
    RemoveWhereSpec(movies + [movie], TmdbIdOf, movie.tmdbId);
    RemoveWhereSpec(movies, TmdbIdOf, movie.tmdbId);
    RemoveWhereSpec([movie], TmdbIdOf, movie.tmdbId);
    assert RemoveWhere([movie], TmdbIdOf, movie.tmdbId) == [] by {
      FilterMembers([movie], x => TmdbIdOf(x) != movie.tmdbId);
    }
  }

  /** The search dialog's own state. */
  class MovieSearchModal {
    var query: string
    var results: seq<Movie>
    var isLoading: bool

    constructor ()
      ensures query == "" && results == [] && !isLoading
    {
      query, results, isLoading := "", [], false;
    }

    /**
     * `handleSearch`: a value shorter than two UTF-16 code units clears the results and
     * sends nothing; otherwise one search request is sent and its results, when it
     * succeeds, replace the shown ones.
     */
    method HandleSearch(value: string, reply: Outcome<seq<Movie>>) returns (sent: Option<string>)
      modifies this
      ensures query == value
      ensures Utf16Length(value) < 2 ==> sent.None? && results == [] && isLoading == old(isLoading)
      ensures Utf16Length(value) >= 2 ==>
        && sent == Some("/movies/search?query=" + value)
        && !isLoading
        && results == if reply.Succeeded? then reply.value else old(results)
    {
      query := value;
      if Utf16Length(value) < 2 {
        results := [];
        return None;
      }
      isLoading := true;
      sent := Some("/movies/search?query=" + value);
      if reply.Succeeded? {
        results := reply.value;
      }
      isLoading := false;
    }
  }

  /** A request the editor sends. */
  datatype Request = Request(verb: string, url: string, payload: seq<Entry>)

  /** The editor page. */
  class ListEditor {
    const isEditing: bool
    /** The `:id` route parameter when editing. */
    const id: string
    var form: Form
    var previews: map<string, string>
    var errors: map<string, string>
    var isLoading: bool
    /** The route navigated to, if any. */
    var location: Option<string>

    constructor (isEditing: bool, id: string)
      ensures this.isEditing == isEditing && this.id == id
      ensures form == Form("", "", None, None, []) && previews == map[] && errors == map[]
      ensures !isLoading && location == None
    {
      this.isEditing := isEditing;
      this.id := id;
      form := Form("", "", None, None, []);
      previews := map[];
      errors := map[];
      isLoading := false;
      location := None;
    }

    method EditName(value: string)
      modifies this
      ensures form == old(form).(name := value) && errors == old(errors)["name" := ""]
      ensures previews == old(previews) && isLoading == old(isLoading) && location == old(location)
    {
      form := form.(name := value);
      errors := errors["name" := ""];
    }

    method EditDescription(value: string)
      modifies this
      ensures form == old(form).(description := value) && errors == old(errors)["description" := ""]
      ensures previews == old(previews) && isLoading == old(isLoading) && location == old(location)
    {
      form := form.(description := value);
      errors := errors["description" := ""];
    }

    /** `handleImageSelect`: a chosen file is stored, previewed as `dataUrl`, and its error is blanked; no file changes nothing. */
    method SelectImage(isBackdrop: bool, file: Option<File>, dataUrl: string)
      modifies this
      ensures var kind := if isBackdrop then "backdrop" else "thumbnail";
        if file.None? then form == old(form) && previews == old(previews) && errors == old(errors)
        else
          && form == (if isBackdrop then old(form).(backdrop := file) else old(form).(thumbnail := file))
          && previews == old(previews)[kind := dataUrl]
          && errors == old(errors)[kind := ""]
      ensures isLoading == old(isLoading) && location == old(location)
    {
      if file.None? {
        return;
      }
      var kind := if isBackdrop then "backdrop" else "thumbnail";
      if isBackdrop {
        form := form.(backdrop := file);
      } else {
        form := form.(thumbnail := file);
      }
      previews := previews[kind := dataUrl];
      errors := errors[kind := ""];
    }

    /**
     * A click on a search result's button: a movie already on the list is disabled and
     * nothing happens; otherwise it is appended at the end and the movies error is blanked.
     */
    method ChooseMovie(movie: Movie)
      modifies this
      ensures IsSelected(old(form.movies), movie) ==> form == old(form) && errors == old(errors)
      ensures !IsSelected(old(form.movies), movie) ==>
        && form == old(form).(movies := old(form.movies) + [movie])
        && errors == old(errors)["movies" := ""]
        && IsSelected(form.movies, movie)
      ensures previews == old(previews) && isLoading == old(isLoading) && location == old(location)
    {
      if IsSelected(form.movies, movie) {
        return;
      }
      form := form.(movies := form.movies + [movie]);
      errors := errors["movies" := ""];
      assert form.movies[|form.movies| - 1] == movie;
    }

    method Remove(movie: Movie)
      modifies this
      ensures form == old(form).(movies := RemoveMovie(old(form.movies), movie))
      ensures errors == old(errors) && previews == old(previews)
      ensures isLoading == old(isLoading) && location == old(location)
    {
      form := form.(movies := RemoveMovie(form.movies, movie));
    }

    /**
     * `handleSubmit`, with `reply` the server's answer carrying the saved list's id. An
     * invalid form sends nothing. A valid one sends the payload (PATCH to the list when
     * editing, POST to the collection when creating); success moves to the saved list,
     * failure with a response body shows the body's field errors.
     */
    method Submit(reply: Outcome<nat>) returns (sent: Option<Request>)
      modifies this
      ensures form == old(form) && previews == old(previews)
      ensures var checked := ValidateForm(old(form), isEditing);
        if |checked| != 0 then
          sent.None? && errors == checked && isLoading == old(isLoading) && location == old(location)
        else
          && sent.Some?
          && sent.value.verb == (if isEditing then "PATCH" else "POST")
          && sent.value.url == (if isEditing then "/lists/" + id + "/" else "/lists/")
          && PayloadRules(sent.value.payload, form, isEditing)
          && !isLoading
          && match reply
             case Succeeded(saved) => location == Some("/lists/" + Decimal(saved)) && errors == checked
             case Failed(e) =>
               && location == old(location)
               && errors == if e.body.Some? then e.body.value.fields else checked
    {
      var checked := ValidateForm(form, isEditing);
      errors := checked;
      if |checked| != 0 {
        return None;
      }
      isLoading := true;
      var payload := BuildPayload(form, isEditing);
      if isEditing {
        sent := Some(Request("PATCH", "/lists/" + id + "/", payload));
      } else {
        sent := Some(Request("POST", "/lists/", payload));
      }
      match reply {
        case Succeeded(saved) =>
          location := Some("/lists/" + Decimal(saved));
        case Failed(e) =>
          if e.body.Some? {
            errors := e.body.value.fields;
          }
      }
      isLoading := false;
    }
  }
}
