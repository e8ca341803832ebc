/** The review list both screens load for a place: the record each review
    object is normalised to (app/index.tsx `fetchReviews` and app/bookmarks.tsx
    `fetchReviews` use the same field fallbacks), the two ways the screens find
    the list inside a response, and the proof that they end in the same list. */
module Reviews {
  import opened JsValues

  datatype ReviewRecord = ReviewRecord(id: Json, text: Json, rating: Json)

  /** The `map` callback `(r, idx) => ({ id: r.id ?? r.review_id ?? idx, text:
      r.text ?? r.comment ?? "", rating: r.rating ?? r.stars ?? 0 })`.
      Reading `r.id` throws when the element is `null`; every field of the
      record it builds is present and not null. */
  function NormalizeReview(r: Json, idx: nat): (out: Outcome<ReviewRecord>)
    ensures out.Ok? <==> r != JNull
    ensures out.Ok? ==> out.value.id != JNull && out.value.text != JNull && out.value.rating != JNull
  {
    if r == JNull then Thrown
    else Ok(ReviewRecord(
      CoalesceOr(Coalesce(Property(r, "id"), Property(r, "review_id")), JNum(idx as real)),
      CoalesceOr(Coalesce(Property(r, "text"), Property(r, "comment")), JStr("")),
      CoalesceOr(Coalesce(Property(r, "rating"), Property(r, "stars")), JNum(0.0))))
  }

  /** The value of `??`-chain `a ?? b ?? d`, spelled out: the first of `a`, `b`
      that is present and not null, else `d`. */
  function FirstPresent(a: Option<Json>, b: Option<Json>, d: Json): Json
  {
    if !IsNullish(a) then a.value else if !IsNullish(b) then b.value else d
  }

  /** Each field falls back along its own chain of aliases: `id`, then
      `review_id`, then the position in the list; `text`, then `comment`, then
      `""`; `rating`, then `stars`, then `0`. */
  lemma ReviewFallbacks(r: Json, idx: nat)
    requires r != JNull
    ensures NormalizeReview(r, idx).value.id ==
            FirstPresent(Property(r, "id"), Property(r, "review_id"), JNum(idx as real))
    ensures NormalizeReview(r, idx).value.text ==
            FirstPresent(Property(r, "text"), Property(r, "comment"), JStr(""))
    ensures NormalizeReview(r, idx).value.rating ==
            FirstPresent(Property(r, "rating"), Property(r, "stars"), JNum(0.0))
  {
  }

  /** `items.map(callback)`: throws when `items` is not an array or holds a
      `null`; otherwise one record per element, in the same order. */
  function MapReviews(items: Json): (r: Outcome<seq<ReviewRecord>>)
    ensures r.Ok? <==> items.JArr? && forall i :: 0 <= i < |items.items| ==> items.items[i] != JNull
    ensures r.Ok? ==> |r.value| == |items.items|
    ensures r.Ok? ==> forall i :: 0 <= i < |items.items| ==>
              r.value[i] == NormalizeReview(items.items[i], i).value
  {
    ArrayMap(items, NormalizeReview)
  }

  /** Reviews that carry neither `id` nor `review_id` get their positions as
      ids, so no two of them share one. */
  lemma PositionalIdsDistinct(items: seq<Json>, i: nat, j: nat)
    requires MapReviews(JArr(items)).Ok?
    requires i < j < |items|
    requires IsNullish(Property(items[i], "id")) && IsNullish(Property(items[i], "review_id"))
    requires IsNullish(Property(items[j], "id")) && IsNullish(Property(items[j], "review_id"))
    ensures MapReviews(JArr(items)).value[i].id != MapReviews(JArr(items)).value[j].id
  {
    var rs := MapReviews(JArr(items)).value;
    assert rs[i] == NormalizeReview(items[i], i).value;
    assert rs[j] == NormalizeReview(items[j], j).value;
    assert rs[i].id == JNum(i as real) && rs[j].id == JNum(j as real);
  }

  /** The list found by the map screen (app/index.tsx): `data.items ?? data`,
      then mapped. Reading `items` of `null` throws, and so does `map` on
      anything that is not an array: an object without `items` or a scalar. */
  function MapScreenEnvelope(data: Json): (r: Outcome<seq<ReviewRecord>>)
    ensures data.JArr? ==> r == MapReviews(data)
    ensures data == JNull ==> r.Thrown?
    ensures data.JObj? && !IsNullish(Property(data, "items")) ==> r == MapReviews(data.fields["items"])
    ensures data.JObj? && IsNullish(Property(data, "items")) ==> r.Thrown?
    ensures data.JNum? || data.JStr? || data.JBool? ==> r.Thrown?
  {
    match Member(data, "items")
    case Thrown => Thrown
    case Ok(items) => MapReviews(CoalesceOr(items, data))
  }

  /** The list found by the bookmarks screen (app/bookmarks.tsx): the body
      text, or `{}` when it is empty, parsed; an array is used as is; anything
      else gives `data.items ?? []`. */
  function BookmarksEnvelope(body: Body): (r: Outcome<seq<ReviewRecord>>)
    ensures body.EmptyText? ==> r == Ok([])
    ensures body.InvalidText? ==> r.Thrown?
    ensures body.JsonText? && body.json.JArr? ==> r == MapReviews(body.json)
    ensures body.JsonText? && body.json.JObj? ==> r == MapReviews(CoalesceOr(Property(body.json, "items"), JArr([])))
    ensures body == JsonText(JNull) ==> r.Thrown?
    ensures body.JsonText? && (body.json.JBool? || body.json.JNum? || body.json.JStr?) ==> r == Ok([])
  {
    var data := if body.EmptyText? then Ok(JObj(map[])) else ParseJson(body);
    match data
    case Thrown => Thrown
    case Ok(d) =>
      if d.JArr? then MapReviews(d)
      else
        match Member(d, "items")
        case Thrown => Thrown
        case Ok(items) => MapReviews(CoalesceOr(items, JArr([])))
  }

  /** The screen's `reviews` after `fetchReviews` on the map screen: every
      failure (rejected fetch, non-ok status, unparsable body, exception in the
      mapping) leaves the list empty. */
  function MapScreenReviews(response: Response): (r: seq<ReviewRecord>)
    ensures response.Failed? || !response.ok || !response.body.JsonText? ==> r == []
    ensures response.Received? && response.ok && response.body.JsonText? ==>
              r == match MapScreenEnvelope(response.body.json) case Ok(rs) => rs case Thrown => []
  {
    match response
    case Failed => []
    case Received(ok, body) =>
      if !ok then []
      else
        match ParseJson(body)
        case Thrown => []
        case Ok(data) =>
          var mapped := MapScreenEnvelope(data);
          if mapped.Ok? then mapped.value else []
  }

  /** The screen's `reviews` after `fetchReviews` on the bookmarks screen. */
  function BookmarksReviews(response: Response): (r: seq<ReviewRecord>)
    ensures response.Failed? || !response.ok || response.body.InvalidText? ==> r == []
    ensures response.Received? && response.ok ==>
              r == match BookmarksEnvelope(response.body) case Ok(rs) => rs case Thrown => []
  {
    match response
    case Failed => []
    case Received(ok, body) =>
      if !ok then []
      else
        var mapped := BookmarksEnvelope(body);
        if mapped.Ok? then mapped.value else []
  }

  /** A bare array and the same array under `items` give the same reviews. */
  lemma EnvelopeTolerance(items: seq<Json>, others: map<string, Json>)
    ensures MapScreenEnvelope(JArr(items)) == MapScreenEnvelope(JObj(others["items" := JArr(items)]))
    ensures BookmarksEnvelope(JsonText(JArr(items))) ==
            BookmarksEnvelope(JsonText(JObj(others["items" := JArr(items)])))
  {
  }

  /** The two screens, although they unwrap the response differently, show
      the same reviews for every response: where the map screen throws on a
      non-array (`{}` or `{items: null}` leave `data` itself, which has no
      `map`), the bookmarks screen falls back to `[]`, and both end empty. */
  lemma {:induction false} ScreensAgreeOnReviews(response: Response)
    ensures MapScreenReviews(response) == BookmarksReviews(response)
  {
    match response
    case Failed =>
    case Received(ok, body) =>
      if ok {
        match body
        case EmptyText =>
          assert MapReviews(JArr([])) == Ok([]);
        case InvalidText =>
        case JsonText(d) =>
          if !d.JArr? && d != JNull {
            var items := Property(d, "items");
            if IsNullish(items) {
              assert MapScreenEnvelope(d).Thrown?;
              assert MapReviews(JArr([])) == Ok([]);
            } else {
              assert MapScreenEnvelope(d) == MapReviews(items.value);
              assert BookmarksEnvelope(body) == MapReviews(items.value);
            }
          }
      }
  }
}
