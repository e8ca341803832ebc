/** The map screen (app/index.tsx): the draggable bottom sheet and its snap
    points, the place list loaded for the map, the place details with their
    reviews, and the review form. */
module PlaceMap {
  import opened JsValues
  import opened JsStrings
  import opened Reviews

  // ---------------------------------------------------------------------
  // Bottom sheet
  // ---------------------------------------------------------------------

  /** The sheet's top offset at its three snap points, measured downward from
      the top of the screen: FULL (most open) < HALF < CLOSED (off screen). */
  datatype SnapPoints = SnapPoints(full: real, half: real, closed: real) {
    predicate Ordered()
    {
      full < half < closed
    }

    predicate Holds(pos: real)
    {
      full <= pos <= closed
    }
  }

  /** A release with a vertical travel beyond this distance is a fling. */
  const FlingDistance: real := 100.0

  /** The sheet claims a drag once it has moved beyond this distance vertically. */
  const CaptureDistance: real := 5.0

  function Abs(x: real): (r: real)
    ensures r >= 0.0 && (r == x || r == -x)
  {
    if x < 0.0 then -x else x
  }

  /** `onMoveShouldSetPanResponder`: the sheet takes over a gesture only once
      it has travelled more than the capture distance up or down. */
  predicate ClaimsGesture(dy: real)
    ensures ClaimsGesture(dy) <==> dy > CaptureDistance || dy < -CaptureDistance
  {
    Abs(dy) > CaptureDistance
  }

  /** `onPanResponderMove`: the gesture's travel is added to the current
      offset, and the sheet moves only when the result stays between FULL and
      CLOSED; otherwise it stays where it is. */
  function DragTarget(s: SnapPoints, current: real, dy: real): (r: real)
    ensures r == current || r == current + dy
    ensures r == current + dy <==> s.Holds(current + dy) || dy == 0.0
    ensures s.Holds(current) ==> s.Holds(r)
  {
    if s.Holds(current + dy) then current + dy else current
  }

  /** An entry of the `distances` array: a snap point and how far the sheet is from it. */
  datatype Candidate = Candidate(pos: real, dist: real)

  /** The `distances` array, in the order FULL, HALF, CLOSED. */
  function Candidates(s: SnapPoints, current: real): (cs: seq<Candidate>)
    ensures |cs| == 3
    ensures cs[0].pos == s.full && cs[1].pos == s.half && cs[2].pos == s.closed
    ensures forall i :: 0 <= i < 3 ==> cs[i].dist == Abs(current - cs[i].pos)
  {
    [ Candidate(s.full, Abs(current - s.full)),
      Candidate(s.half, Abs(current - s.half)),
      Candidate(s.closed, Abs(current - s.closed)) ]
  }

  predicate SortedByDist(cs: seq<Candidate>)
  {
    forall i, j :: 0 <= i < j < |cs| ==> cs[i].dist <= cs[j].dist
  }

  /** Inserts `c` before the first entry that is not nearer than it. */
  function InsertByDist(c: Candidate, cs: seq<Candidate>): (r: seq<Candidate>)
    ensures multiset(r) == multiset{c} + multiset(cs)
    ensures |r| == |cs| + 1
    ensures r[0] == if cs == [] || c.dist <= cs[0].dist then c else cs[0]
    decreases |cs|
  {
    if cs == [] || c.dist <= cs[0].dist then [c] + cs
    else
      assert cs == [cs[0]] + cs[1..];
      [cs[0]] + InsertByDist(c, cs[1..])
  }

  lemma {:induction false} InsertKeepsSorted(c: Candidate, cs: seq<Candidate>)
    requires SortedByDist(cs)
    ensures SortedByDist(InsertByDist(c, cs))
    decreases |cs|
  {
    if cs != [] && c.dist > cs[0].dist {
      var rest := InsertByDist(c, cs[1..]);
      InsertKeepsSorted(c, cs[1..]);
      forall k | 0 <= k < |rest| ensures cs[0].dist <= rest[k].dist {
        assert rest[k] in multiset(rest);
        assert rest[k] == c || rest[k] in cs[1..];
      }
      assert InsertByDist(c, cs) == [cs[0]] + rest;
    }
  }

  /** `distances.sort((a, b) => a.dist - b.dist)`: a stable sort by distance
      (an entry is placed ahead of later entries at the same distance), giving
      a sorted permutation of its input. */
  function SortByDist(cs: seq<Candidate>): (r: seq<Candidate>)
    ensures multiset(r) == multiset(cs)
    ensures |r| == |cs|
    ensures SortedByDist(r)
    decreases |cs|
  {
    if cs == [] then []
    else
      assert cs == [cs[0]] + cs[1..];
      InsertKeepsSorted(cs[0], SortByDist(cs[1..]));
      InsertByDist(cs[0], SortByDist(cs[1..]))
  }

  /** A reference definition of the sort's first entry: the earliest entry at
      the smallest distance. */
  function EarliestNearest(cs: seq<Candidate>): (r: Candidate)
    requires cs != []
    ensures r in cs
    decreases |cs|
  {
    if |cs| == 1 then cs[0]
    else
      var m := EarliestNearest(cs[1..]);
      if cs[0].dist <= m.dist then cs[0] else m
  }

  /** The stable sort puts the earliest nearest entry first. */
  lemma {:induction false} SortHeadIsEarliestNearest(cs: seq<Candidate>)
    requires cs != []
    ensures SortByDist(cs)[0] == EarliestNearest(cs)
    decreases |cs|
  {
    if |cs| > 1 {
      SortHeadIsEarliestNearest(cs[1..]);
    }
  }

  /** `distances[0].pos` after the sort. */
  function NearestSnap(s: SnapPoints, current: real): (r: real)
    ensures r == s.full || r == s.half || r == s.closed
  {
    var sorted := SortByDist(Candidates(s, current));
    assert sorted[0] in multiset(Candidates(s, current));
    sorted[0].pos
  }

  /** An independent description of the nearest snap point: below the midpoint
      of FULL and HALF it is FULL, below the midpoint of HALF and CLOSED it is
      HALF, and CLOSED beyond; a position exactly on a midpoint goes to the
      more open point. */
  function ThresholdSnap(s: SnapPoints, current: real): real
  {
    if current <= (s.full + s.half) / 2.0 then s.full
    else if current <= (s.half + s.closed) / 2.0 then s.half
    else s.closed
  }

  /** The earliest nearest of three entries, spelled out. */
  lemma EarliestNearestOfThree(a: Candidate, b: Candidate, c: Candidate)
    ensures EarliestNearest([a, b, c]) ==
            if a.dist <= b.dist && a.dist <= c.dist then a else if b.dist <= c.dist then b else c
  {
    assert [a, b, c][1..] == [b, c];
    assert [b, c][1..] == [c];
  }

  /** The earliest nearest of FULL, HALF and CLOSED is the threshold snap point. */
  lemma ThresholdIsEarliestNearest(s: SnapPoints, current: real)
    requires s.Ordered()
    ensures var dF, dH, dC := Abs(current - s.full), Abs(current - s.half), Abs(current - s.closed);
            ThresholdSnap(s, current) ==
            if dF <= dH && dF <= dC then s.full else if dH <= dC then s.half else s.closed
  {
    if current <= s.full {
    } else if current <= s.half {
    } else if current <= s.closed {
    } else {
    }
  }

  /** The nearest snap point is the threshold snap point: it is at least as
      close as each of the three, and a tie goes to the one listed earlier. */
  lemma NearestSnapIsThreshold(s: SnapPoints, current: real)
    requires s.Ordered()
    ensures NearestSnap(s, current) == ThresholdSnap(s, current)
    ensures var r := NearestSnap(s, current);
            Abs(current - r) <= Abs(current - s.full) &&
            Abs(current - r) <= Abs(current - s.half) &&
            Abs(current - r) <= Abs(current - s.closed)
    ensures NearestSnap(s, current) == s.half ==> Abs(current - s.full) > Abs(current - s.half)
    ensures NearestSnap(s, current) == s.closed ==>
              Abs(current - s.full) > Abs(current - s.closed) && Abs(current - s.half) > Abs(current - s.closed)
  {
    var cs := Candidates(s, current);
    SortHeadIsEarliestNearest(cs);
    EarliestNearestOfThree(cs[0], cs[1], cs[2]);
    assert cs == [cs[0], cs[1], cs[2]];
    ThresholdIsEarliestNearest(s, current);
  }

  /** `onPanResponderRelease`: a fling down closes the sheet, a fling up opens
      it fully, and anything shorter snaps to the nearest point. The target is
      always one of the three snap points. */
  function ReleaseTarget(s: SnapPoints, current: real, dy: real): (r: real)
    ensures r == s.full || r == s.half || r == s.closed
    ensures dy > FlingDistance ==> r == s.closed
    ensures dy < -FlingDistance ==> r == s.full
    ensures s.Ordered() ==> s.Holds(r)
  {
    if dy > FlingDistance then s.closed
    else if dy < -FlingDistance then s.full
    else NearestSnap(s, current)
  }

  /** A release without a fling lands on the threshold snap point. */
  lemma ReleaseWithoutFling(s: SnapPoints, current: real, dy: real)
    requires s.Ordered()
    requires -FlingDistance <= dy <= FlingDistance
    ensures ReleaseTarget(s, current, dy) == ThresholdSnap(s, current)
  {
    NearestSnapIsThreshold(s, current);
  }

  // ---------------------------------------------------------------------
  // Places
  // ---------------------------------------------------------------------

  /** A place as the map holds it; `id` and `name` are copied as they are, and
      may be `undefined`. */
  datatype PlaceRecord = PlaceRecord(
    id: Option<Json>, name: Option<Json>, latitude: Json, longitude: Json, address: Json)

  /** `p.point?.coordinates`: present only when `point` is an object holding
      `coordinates`; a missing or null `point` short-circuits to `undefined`. */
  function Coordinates(p: Json): (r: Option<Json>)
    ensures IsNullish(Property(p, "point")) ==> r == None
    ensures r.Some? <==> p.JObj? && "point" in p.fields && p.fields["point"].JObj? &&
                         "coordinates" in p.fields["point"].fields
    ensures r.Some? ==> r.value == p.fields["point"].fields["coordinates"]
  {
    OptMember(Property(p, "point"), "coordinates")
  }

  /** The `map` callback of `fetchPlaces`. The point is GeoJSON, so latitude is
      `coordinates[1]` and longitude `coordinates[0]`, each `0` when missing;
      the address is `""` when missing. `p.id` on a `null` element throws. */
  function NormalizePlace(p: Json, idx: nat): (out: Outcome<PlaceRecord>)
    ensures out.Ok? <==> p != JNull
    ensures out.Ok? ==> out.value.latitude != JNull && out.value.longitude != JNull && out.value.address != JNull
    ensures out.Ok? ==> out.value.id == Property(p, "id") && out.value.name == Property(p, "name")
    ensures out.Ok? && !IsNullish(Property(p, "address")) ==> out.value.address == Property(p, "address").value
    ensures out.Ok? && IsNullish(Property(p, "address")) ==> out.value.address == JStr("")
  {
    if p == JNull then Thrown
    else Ok(PlaceRecord(
      Property(p, "id"),
      Property(p, "name"),
      CoalesceOr(OptIndex(Coordinates(p), 1), JNum(0.0)),
      CoalesceOr(OptIndex(Coordinates(p), 0), JNum(0.0)),
      CoalesceOr(Property(p, "address"), JStr(""))))
  }

  /** `data.map(callback)`: one place per element, in the same order, or a
      throw when `data` is not an array or holds a `null`. */
  function MapPlaces(data: Json): (r: Outcome<seq<PlaceRecord>>)
    ensures r.Ok? <==> data.JArr? && forall i :: 0 <= i < |data.items| ==> data.items[i] != JNull
    ensures r.Ok? ==> |r.value| == |data.items|
    ensures r.Ok? ==> forall i :: 0 <= i < |data.items| ==> r.value[i] == NormalizePlace(data.items[i], i).value
  {
    ArrayMap(data, NormalizePlace)
  }

  /** A place whose `point.coordinates` is an array takes its latitude from
      the second entry and its longitude from the first, each `0` when that
      entry is missing or null. */
  lemma PlaceCoordinates(p: Json, point: map<string, Json>, coords: seq<Json>)
    requires Property(p, "point") == Some(JObj(point))
    requires Property(JObj(point), "coordinates") == Some(JArr(coords))
    ensures NormalizePlace(p, 0).Ok?
    ensures NormalizePlace(p, 0).value.latitude ==
            if |coords| > 1 && coords[1] != JNull then coords[1] else JNum(0.0)
    ensures NormalizePlace(p, 0).value.longitude ==
            if |coords| > 0 && coords[0] != JNull then coords[0] else JNum(0.0)
  {
  }

  /** A place whose `point` is missing or null, or holds no `coordinates`,
      sits at (0, 0), whatever its other fields. */
  lemma PlaceWithoutCoordinates(p: Json, idx: nat)
    requires p != JNull
    requires IsNullish(Coordinates(p))
    ensures NormalizePlace(p, idx).value.latitude == JNum(0.0)
    ensures NormalizePlace(p, idx).value.longitude == JNum(0.0)
  {
  }

  /** The place list `fetchPlaces` stores, or None when it keeps the old one.
      The status is not checked: any response whose body is an array without
      null elements replaces the places, one per element. */
  function LoadedPlaces(response: Response): (r: Option<seq<PlaceRecord>>)
    ensures r.Some? <==> response.Received? && response.body.JsonText? && MapPlaces(response.body.json).Ok?
    ensures r.Some? ==> |r.value| == |response.body.json.items|
    ensures r.Some? ==> r.value == MapPlaces(response.body.json).value
  {
    match response
    case Failed => None
    case Received(_, body) =>
      match ParseJson(body)
      case Thrown => None
      case Ok(data) =>
        var mapped := MapPlaces(data);
        if mapped.Ok? then Some(mapped.value) else None
  }

  // ---------------------------------------------------------------------
  // The screen
  // ---------------------------------------------------------------------

  /** The body of the review POST: the place it is for and the trimmed text,
      with the rating field as typed. */
  datatype ReviewPost = ReviewPost(placeId: Option<Json>, text: string, ratingText: string)

  class MapScreen {
    const snaps: SnapPoints
    var search: string
    var places: seq<PlaceRecord>
    var selectedPlace: Option<PlaceRecord>
    var reviews: seq<ReviewRecord>
    var reviewText: string
    var reviewRating: string
    var showReviewModal: bool
    /** The sheet's top offset (`slideAnim`). */
    var sheetTop: real

    /** The snap points are ordered and the sheet rests between FULL and CLOSED. */
    ghost predicate Valid()
      reads this
    {
      snaps.Ordered() && snaps.Holds(sheetTop)
    }

    /** The screen as mounted: the sheet starts CLOSED, the form's rating is "5". */
    constructor (snaps: SnapPoints)
      requires snaps.Ordered()
      ensures Valid() && this.snaps == snaps
      ensures sheetTop == snaps.closed
      ensures search == "" && places == [] && selectedPlace == None && reviews == []
      ensures reviewText == "" && reviewRating == "5" && !showReviewModal
    {
      this.snaps := snaps;
      search, places, selectedPlace, reviews := "", [], None, [];
      reviewText, reviewRating, showReviewModal := "", "5", false;
      sheetTop := snaps.closed;
    }

    /** A drag event with the gesture's vertical travel `dy`. */
    method Drag(dy: real)
      requires Valid()
      modifies this`sheetTop
      ensures Valid()
      ensures sheetTop == DragTarget(snaps, old(sheetTop), dy)
    {
      var newPos := sheetTop + dy;
      if snaps.Holds(newPos) {
        sheetTop := newPos;
      }
    }

    /** The end of a drag: the sheet springs to its target, and once it has
        settled CLOSED the details are cleared. */
    method Release(dy: real)
      requires Valid()
      modifies this`sheetTop, this`selectedPlace, this`reviews
      ensures Valid()
      ensures sheetTop == ReleaseTarget(snaps, old(sheetTop), dy)
      ensures sheetTop == snaps.closed ==> selectedPlace == None && reviews == []
      ensures sheetTop != snaps.closed ==> selectedPlace == old(selectedPlace) && reviews == old(reviews)
    {
      var newPos := snaps.half;
      if dy > FlingDistance {
        newPos := snaps.closed;
      } else if dy < -FlingDistance {
        newPos := snaps.full;
      } else {
        newPos := NearestSnap(snaps, sheetTop);
      }
      sheetTop := newPos;
      if newPos == snaps.closed {
        selectedPlace := None;
        reviews := [];
      }
    }

    /** `closeDetails`: the sheet springs CLOSED and the details are cleared. */
    method CloseDetails()
      requires Valid()
      modifies this`sheetTop, this`selectedPlace, this`reviews
      ensures Valid()
      ensures sheetTop == snaps.closed && selectedPlace == None && reviews == []
    {
      sheetTop := snaps.closed;
      selectedPlace := None;
      reviews := [];
    }

    /** `fetchPlaces`: replaces the places when the body maps cleanly, and
        otherwise (rejected fetch, unparsable body, a throw in the mapping)
        keeps them. */
    method FetchPlaces(response: Response)
      modifies this`places
      ensures places == if LoadedPlaces(response).Some? then LoadedPlaces(response).value else old(places)
    {
      if response.Failed? {
        return;
      }
      var data := ParseJson(response.body);
      if data.Thrown? {
        return;
      }
      var mapped := MapPlaces(data.value);
      if mapped.Ok? {
        places := mapped.value;
      }
    }

    /** `fetchReviews`: every failure leaves the reviews empty. */
    method FetchReviews(response: Response)
      modifies this`reviews
      ensures reviews == MapScreenReviews(response)
    {
      if response.Failed? || !response.ok {
        reviews := [];
        return;
      }
      var data := ParseJson(response.body);
      if data.Thrown? {
        reviews := [];
        return;
      }
      var mapped := MapScreenEnvelope(data.value);
      reviews := if mapped.Ok? then mapped.value else [];
    }

    /** `openPlaceDetails`: selects the place, loads its reviews and springs
        the sheet to HALF. */
    method OpenPlaceDetails(place: PlaceRecord, response: Response)
      requires Valid()
      modifies this`selectedPlace, this`reviews, this`sheetTop
      ensures Valid()
      ensures selectedPlace == Some(place) && reviews == MapScreenReviews(response)
      ensures sheetTop == snaps.half
    {
      selectedPlace := Some(place);
      FetchReviews(response);
      sheetTop := snaps.half;
    }

    /** `handleSearch`: the geocoding request is made exactly when the search
        text holds some character that is not whitespace. */
    method HandleSearch() returns (geocode: bool)
      ensures geocode <==> exists i :: 0 <= i < |search| && !IsWhitespace(search[i])
    {
      geocode := Trim(search) != "";
    }

    /** `handleAddBookmark`: the bookmark POST is made for the selected place,
        and only when a place is selected and a token is stored. */
    method HandleAddBookmark(token: Option<string>) returns (request: Option<Option<Json>>)
      ensures request.Some? <==> selectedPlace.Some? && HasToken(token)
      ensures request.Some? ==> request.value == selectedPlace.value.id
    {
      if selectedPlace.None? || !HasToken(token) {
        return None;
      }
      return Some(selectedPlace.value.id);
    }

    /** `handleAddReview`. */
    method HandleAddReview()
      modifies this`showReviewModal
      ensures showReviewModal
    {
      showReviewModal := true;
    }

    /** `submitReview`, given the token read from storage, the response to the
        POST and the response to the reviews refetch. Without text or without a
        selected place nothing is sent; the text sent is trimmed; after a
        successful POST the reviews are reloaded and the form resets. */
    method SubmitReview(token: Option<string>, post: Response, refetch: Response)
      returns (request: Option<ReviewPost>)
      modifies this`reviews, this`reviewText, this`reviewRating, this`showReviewModal
      ensures request.Some? <==> !AllWhitespace(old(reviewText)) && selectedPlace.Some? && HasToken(token)
      ensures request.Some? ==>
                request.value == ReviewPost(selectedPlace.value.id, Trim(old(reviewText)), old(reviewRating))
      ensures request.Some? && post.Received? && post.ok ==>
                reviews == MapScreenReviews(refetch) &&
                reviewText == "" && reviewRating == "5" && !showReviewModal
      ensures !(request.Some? && post.Received? && post.ok) ==>
                reviews == old(reviews) && reviewText == old(reviewText) &&
                reviewRating == old(reviewRating) && showReviewModal == old(showReviewModal)
    {
      if Trim(reviewText) == "" || selectedPlace.None? {
        return None;
      }
      if !HasToken(token) {
        return None;
      }
      request := Some(ReviewPost(selectedPlace.value.id, Trim(reviewText), reviewRating));
      if post.Failed? || !post.ok {
        return;
      }
      FetchReviews(refetch);
      reviewText := "";
      reviewRating := "5";
      showReviewModal := false;
    }
  }
}
