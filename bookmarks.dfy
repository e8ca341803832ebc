/** The bookmarks screen (app/bookmarks.tsx): the stored bookmark list, its
    deletion by id, the details modal with the place's reviews, and the
    "recommend a place" form. */
module Bookmarks {
  import opened JsValues
  import opened JsStrings
  import opened Reviews

  // ---------------------------------------------------------------------
  // Loading and deleting bookmarks
  // ---------------------------------------------------------------------

  /** `data.items ?? data`: the list is the `items` field when present and not
      null, and the whole body otherwise (an array, an object without `items`,
      or even a number, string or boolean); reading `items` of `null` throws. */
  function BookmarkList(data: Json): (r: Outcome<Json>)
    ensures r.Thrown? <==> data == JNull
    ensures data.JObj? && "items" in data.fields && data.fields["items"] != JNull ==>
              r == Ok(data.fields["items"])
    ensures data != JNull && IsNullish(Property(data, "items")) ==> r == Ok(data)
  {
    match Member(data, "items")
    case Thrown => Thrown
    case Ok(items) => Ok(CoalesceOr(items, data))
  }

  /** What a signed-in `fetchBookmarks` stores, or None when it keeps the old
      list: only an ok response whose body parses to a value other than
      `null` replaces it. */
  function StoredBookmarks(response: Response): (r: Option<Json>)
    ensures r.Some? <==> response.Received? && response.ok && response.body.JsonText? && response.body.json != JNull
    ensures r.Some? ==> Ok(r.value) == BookmarkList(response.body.json)
  {
    match response
    case Failed => None
    case Received(ok, body) =>
      if !ok then None
      else
        match ParseJson(body)
        case Thrown => None
        case Ok(data) =>
          var list := BookmarkList(data);
          if list.Ok? then Some(list.value) else None
  }

  /** The `filter` callback `b => b.id !== bookmarkId`, for an entry that is
      not null; an entry without `id` has the id `undefined`. */
  predicate Keeps(b: Json, bookmarkId: Option<Json>)
    ensures b.JObj? && "id" in b.fields ==> (Keeps(b, bookmarkId) <==> bookmarkId != Some(b.fields["id"]))
    ensures !b.JObj? || "id" !in b.fields ==> (Keeps(b, bookmarkId) <==> bookmarkId.Some?)
  {
    Property(b, "id") != bookmarkId
  }

  /** The number of entries the delete removes. */
  function CountMatching(xs: seq<Json>, bookmarkId: Option<Json>): (n: nat)
    ensures n <= |xs|
  {
    if xs == [] then 0
    else (if Keeps(xs[0], bookmarkId) then 0 else 1) + CountMatching(xs[1..], bookmarkId)
  }

  /** `a` is `b` with some entries left out, the rest in their order. */
  ghost predicate IsSubsequence(a: seq<Json>, b: seq<Json>)
    decreases |b|
  {
    if a == [] then true
    else if b == [] then false
    else if a[0] == b[0] then IsSubsequence(a[1..], b[1..])
    else IsSubsequence(a, b[1..])
  }

  /** `prev.filter(b => b.id !== bookmarkId)` on the entries of an array:
      throws when an entry is `null`; otherwise keeps, in their order, exactly
      the entries whose id differs from `bookmarkId`, every one of them. */
  function RemoveById(xs: seq<Json>, bookmarkId: Option<Json>): (r: Outcome<seq<Json>>)
    ensures r.Ok? <==> forall i :: 0 <= i < |xs| ==> xs[i] != JNull
    ensures r.Ok? ==> forall b :: b in r.value <==> b in xs && Keeps(b, bookmarkId)
    ensures r.Ok? ==> IsSubsequence(r.value, xs)
    ensures r.Ok? ==> |r.value| == |xs| - CountMatching(xs, bookmarkId)
    decreases |xs|
  {
    if xs == [] then Ok([])
    else if xs[0] == JNull then Thrown
    else
      var rest := RemoveById(xs[1..], bookmarkId);
      if rest.Thrown? then
        assert exists i :: 0 <= i < |xs| - 1 && xs[1..][i] == JNull;
        Thrown
      else
        assert xs == [xs[0]] + xs[1..];
        if Keeps(xs[0], bookmarkId) then
          assert ([xs[0]] + rest.value)[1..] == rest.value;
          Ok([xs[0]] + rest.value)
        else
          assert rest.value != [] ==> rest.value[0] in rest.value && rest.value[0] != xs[0];
          rest
  }

  /** Deleting an id that no entry carries leaves the list as it is. */
  lemma {:induction false} RemoveAbsentId(xs: seq<Json>, bookmarkId: Option<Json>)
    requires forall i :: 0 <= i < |xs| ==> xs[i] != JNull && Keeps(xs[i], bookmarkId)
    ensures RemoveById(xs, bookmarkId) == Ok(xs)
    decreases |xs|
  {
    if xs != [] {
      RemoveAbsentId(xs[1..], bookmarkId);
      assert xs == [xs[0]] + xs[1..];
    }
  }

  /** Deleting the same id again removes nothing more. */
  lemma RemoveByIdIdempotent(xs: seq<Json>, bookmarkId: Option<Json>)
    requires RemoveById(xs, bookmarkId).Ok?
    ensures RemoveById(RemoveById(xs, bookmarkId).value, bookmarkId) == RemoveById(xs, bookmarkId)
  {
    var r := RemoveById(xs, bookmarkId).value;
    forall i | 0 <= i < |r| ensures r[i] != JNull && Keeps(r[i], bookmarkId) {
      assert r[i] in r;
    }
    RemoveAbsentId(r, bookmarkId);
  }

  /** The updater `prev => prev.filter(...)` on whatever the list holds: a
      stored value that is not an array has no `filter` and throws. */
  function FilterBookmarks(prev: Json, bookmarkId: Option<Json>): (r: Outcome<Json>)
    ensures r.Ok? <==> prev.JArr? && RemoveById(prev.items, bookmarkId).Ok?
    ensures r.Ok? ==> r.value == JArr(RemoveById(prev.items, bookmarkId).value)
  {
    if !prev.JArr? then Thrown
    else
      match RemoveById(prev.items, bookmarkId)
      case Thrown => Thrown
      case Ok(kept) => Ok(JArr(kept))
  }

  // ---------------------------------------------------------------------
  // Recommending a place
  // ---------------------------------------------------------------------

  const DefaultRecommendError: Json := JStr("Failed to submit recommendation.")

  /** The alert text after a rejected recommendation: the body's `error`, else
      its `message`, else the default, where `||` lets every falsy value (`""`,
      `0`, `false`, `null`) fall through and a body that does not parse keeps
      the default. The message shown is never falsy. */
  function ErrorMessage(text: Body): (m: Json)
    ensures Truthy(Some(m))
    ensures !text.JsonText? ==> m == DefaultRecommendError
    ensures text.JsonText? && Truthy(Property(text.json, "error")) ==>
              Some(m) == Property(text.json, "error")
    ensures text.JsonText? && !Truthy(Property(text.json, "error")) && Truthy(Property(text.json, "message")) ==>
              Some(m) == Property(text.json, "message")
    ensures text.JsonText? && !Truthy(Property(text.json, "error")) && !Truthy(Property(text.json, "message")) ==>
              m == DefaultRecommendError
  {
    match ParseJson(text)
    case Thrown => DefaultRecommendError
    case Ok(err) =>
      match Member(err, "error")
      case Thrown => DefaultRecommendError
      case Ok(error) => OrElse(error, OrElse(Property(err, "message"), DefaultRecommendError))
  }

  /** An empty `error` does not hide the `message`, unlike with `??`. */
  lemma EmptyErrorFallsThrough(message: string)
    requires message != ""
    ensures ErrorMessage(JsonText(JObj(map["error" := JStr(""), "message" := JStr(message)]))) == JStr(message)
    ensures CoalesceOr(Some(JStr("")), JStr(message)) == JStr("")
  {
  }

  /** The body of the recommendation POST. */
  datatype Recommendation = Recommendation(name: string, address: string)

  /** The alert the recommendation form ends with. */
  datatype RecommendNotice =
    | MissingInfo
    | LoginRequired
    | SubmitFailed(message: Json)
    | NetworkIssue
    | Submitted

  // ---------------------------------------------------------------------
  // The screen
  // ---------------------------------------------------------------------

  class BookmarksScreen {
    /** The list as stored; `fetchBookmarks` stores `data.items ?? data` unchecked. */
    var bookmarks: Json
    var refreshing: bool
    var selectedBookmark: Option<Json>
    var reviews: seq<ReviewRecord>
    var showModal: bool
    var showRecommendModal: bool
    var recName: string
    var recAddress: string
    var submittingRec: bool

    constructor ()
      ensures bookmarks == JArr([]) && !refreshing && selectedBookmark == None && reviews == []
      ensures !showModal && !showRecommendModal && recName == "" && recAddress == "" && !submittingRec
    {
      bookmarks, refreshing, selectedBookmark, reviews := JArr([]), false, None, [];
      showModal, showRecommendModal, recName, recAddress, submittingRec := false, false, "", "", false;
    }

    /** `fetchBookmarks`: with no token the screen is cleared; with one, the
        list is replaced only by a successful response. */
    method FetchBookmarks(token: Option<string>, response: Response)
      modifies this`bookmarks, this`selectedBookmark, this`reviews
      ensures !HasToken(token) ==> bookmarks == JArr([]) && selectedBookmark == None && reviews == []
      ensures HasToken(token) ==> selectedBookmark == old(selectedBookmark) && reviews == old(reviews)
      ensures HasToken(token) ==>
                bookmarks == if StoredBookmarks(response).Some? then StoredBookmarks(response).value else old(bookmarks)
    {
      if !HasToken(token) {
        bookmarks := JArr([]);
        selectedBookmark := None;
        reviews := [];
        return;
      }
      if response.Failed? || !response.ok {
        return;
      }
      var data := ParseJson(response.body);
      if data.Thrown? {
        return;
      }
      var list := BookmarkList(data.value);
      if list.Ok? {
        bookmarks := list.value;
      }
    }

    /** `onRefresh`: a fetch with the refresh indicator on, and off again after. */
    method OnRefresh(token: Option<string>, response: Response)
      modifies this`bookmarks, this`selectedBookmark, this`reviews, this`refreshing
      ensures !refreshing
      ensures !HasToken(token) ==> bookmarks == JArr([]) && selectedBookmark == None && reviews == []
      ensures HasToken(token) ==> selectedBookmark == old(selectedBookmark) && reviews == old(reviews)
      ensures HasToken(token) ==>
                bookmarks == if StoredBookmarks(response).Some? then StoredBookmarks(response).value else old(bookmarks)
    {
      refreshing := true;
      FetchBookmarks(token, response);
      refreshing := false;
    }

    /** `handleDeleteBookmark`: the DELETE is sent only with a token, and only
        an ok response removes the entries with that id from the list. */
    method HandleDeleteBookmark(bookmarkId: Option<Json>, token: Option<string>, response: Response)
      returns (requested: bool)
      modifies this`bookmarks
      ensures requested == HasToken(token)
      ensures requested && response.Received? && response.ok && FilterBookmarks(old(bookmarks), bookmarkId).Ok? ==>
                bookmarks == FilterBookmarks(old(bookmarks), bookmarkId).value
      ensures !(requested && response.Received? && response.ok && FilterBookmarks(old(bookmarks), bookmarkId).Ok?) ==>
                bookmarks == old(bookmarks)
    {
      requested := HasToken(token);
      if !requested || response.Failed? || !response.ok {
        return;
      }
      var filtered := FilterBookmarks(bookmarks, bookmarkId);
      if filtered.Ok? {
        bookmarks := filtered.value;
      }
    }

    /** `fetchReviews`: every failure leaves the reviews empty. */
    method FetchReviews(response: Response)
      modifies this`reviews
      ensures reviews == BookmarksReviews(response)
    {
      if response.Failed? || !response.ok {
        reviews := [];
        return;
      }
      var mapped := BookmarksEnvelope(response.body);
      reviews := if mapped.Ok? then mapped.value else [];
    }

    /** `openBookmarkDetails`: selects the bookmark, loads its reviews, opens the modal. */
    method OpenBookmarkDetails(bookmark: Json, response: Response)
      modifies this`selectedBookmark, this`reviews, this`showModal
      ensures selectedBookmark == Some(bookmark) && reviews == BookmarksReviews(response) && showModal
    {
      selectedBookmark := Some(bookmark);
      FetchReviews(response);
      showModal := true;
    }

    /** `closeModal`. */
    method CloseModal()
      modifies this`showModal, this`selectedBookmark, this`reviews
      ensures !showModal && selectedBookmark == None && reviews == []
    {
      showModal := false;
      selectedBookmark := None;
      reviews := [];
    }

    /** The "Recommend a Place" button. */
    method OpenRecommendModal()
      modifies this`showRecommendModal
      ensures showRecommendModal
    {
      showRecommendModal := true;
    }

    /** The form's Cancel button: closes it and clears both fields. */
    method CancelRecommendation()
      modifies this`showRecommendModal, this`recName, this`recAddress
      ensures !showRecommendModal && recName == "" && recAddress == ""
    {
      showRecommendModal := false;
      recName := "";
      recAddress := "";
    }

    /** `handleSubmitRecommendation`. Unless both trimmed fields are non-empty
        nothing is sent and nothing changes. Otherwise the trimmed values are
        sent when a token is stored, `submittingRec` is false again on every
        path, and only success closes the form and clears its fields. */
    method HandleSubmitRecommendation(token: Option<string>, response: Response)
      returns (request: Option<Recommendation>, notice: RecommendNotice)
      modifies this`submittingRec, this`showRecommendModal, this`recName, this`recAddress
      ensures AllWhitespace(old(recName)) || AllWhitespace(old(recAddress)) ==>
                notice == MissingInfo && request == None &&
                submittingRec == old(submittingRec) && showRecommendModal == old(showRecommendModal) &&
                recName == old(recName) && recAddress == old(recAddress)
      ensures !AllWhitespace(old(recName)) && !AllWhitespace(old(recAddress)) ==> !submittingRec
      ensures request.Some? <==> !AllWhitespace(old(recName)) && !AllWhitespace(old(recAddress)) && HasToken(token)
      ensures request.Some? ==> request.value == Recommendation(Trim(old(recName)), Trim(old(recAddress)))
      ensures request.Some? && response.Failed? ==> notice == NetworkIssue
      ensures request.Some? && response.Received? && !response.ok ==> notice == SubmitFailed(ErrorMessage(response.body))
      ensures request.Some? && response.Received? && response.ok ==>
                notice == Submitted && !showRecommendModal && recName == "" && recAddress == ""
      ensures !(request.Some? && response.Received? && response.ok) ==>
                showRecommendModal == old(showRecommendModal) && recName == old(recName) && recAddress == old(recAddress)
      ensures request.None? && notice != MissingInfo ==> notice == LoginRequired
      ensures !AllWhitespace(old(recName)) && !AllWhitespace(old(recAddress)) && !HasToken(token) ==>
                notice == LoginRequired
    {
      var name := Trim(recName);
      var address := Trim(recAddress);
      if name == "" || address == "" {
        request, notice := None, MissingInfo;
      } else {
        submittingRec := true;
        if !HasToken(token) {
          request, notice := None, LoginRequired;
        } else {
          request := Some(Recommendation(name, address));
          match response
          case Failed =>
            notice := NetworkIssue;
          case Received(ok, body) =>
            if !ok {
              notice := SubmitFailed(ErrorMessage(body));
            } else {
              showRecommendModal := false;
              recName := "";
              recAddress := "";
              notice := Submitted;
            }
        }
        submittingRec := false;
      }
    }
  }
}
