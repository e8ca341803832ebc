/** Parsed JSON values as the screens receive them from `response.json()` and
    `JSON.parse`, the responses they come in, and the JavaScript operators the
    screens apply to them: property access, optional chaining, `??`, `||` and
    `Array.prototype.map` with a callback that may throw. */
module JsValues {

  datatype Option<+T> = None | Some(value: T)

  /** A parsed JSON value. Numbers are kept as reals: the screens only pass them on. */
  datatype Json =
    | JNull
    | JBool(b: bool)
    | JNum(n: real)
    | JStr(s: string)
    | JArr(items: seq<Json>)
    | JObj(fields: map<string, Json>)

  /** The value of an expression that may throw (a TypeError or a SyntaxError). */
  datatype Outcome<+T> = Ok(value: T) | Thrown

  /** The text of a response body, classified by what `JSON.parse` makes of it:
      the empty text, a text that parses to a value, or a text that does not parse. */
  datatype Body = EmptyText | JsonText(json: Json) | InvalidText

  /** What awaiting `fetch` gives: a rejection (network failure), or a response
      with its `ok` flag (status 200-299) and its body. */
  datatype Response = Failed | Received(ok: bool, body: Body)

  /** `response.json()` and `JSON.parse(text)`: the empty text is not JSON either. */
  function ParseJson(body: Body): (r: Outcome<Json>)
    ensures r.Ok? <==> body.JsonText?
    ensures r.Ok? ==> r.value == body.json
  {
    if body.JsonText? then Ok(body.json) else Thrown
  }

  /** `!token` is false for the value read from storage: present and not the empty string. */
  predicate HasToken(token: Option<string>)
    ensures HasToken(token) <==> Truthy(if token.Some? then Some(JStr(token.value)) else None)
  {
    token.Some? && token.value != ""
  }

  /** `v ?? d` treats exactly `undefined` (None) and `null` as absent. */
  predicate IsNullish(o: Option<Json>)
  {
    o == None || o == Some(JNull)
  }

  /** JavaScript truthiness; `undefined`, `null`, `false`, `0` and `""` are falsy. */
  predicate Truthy(o: Option<Json>)
    ensures Truthy(o) <==> !IsNullish(o) && o.value != JBool(false) && o.value != JNum(0.0) && o.value != JStr("")
  {
    match o
    case None => false
    case Some(v) =>
      match v
      case JNull => false
      case JBool(b) => b
      case JNum(n) => n != 0.0
      case JStr(s) => s != ""
      case JArr(_) => true
      case JObj(_) => true
  }

  /** A property read on a value that is not null: an object's own property, and
      `undefined` on everything else (no key the screens read names a built-in
      property of arrays, strings, numbers or booleans). */
  function Property(v: Json, key: string): (r: Option<Json>)
    ensures r.Some? <==> v.JObj? && key in v.fields
    ensures r.Some? ==> r.value == v.fields[key]
  {
    if v.JObj? && key in v.fields then Some(v.fields[key]) else None
  }

  /** `v.key`: reading a property of `null` throws a TypeError. */
  function Member(v: Json, key: string): (r: Outcome<Option<Json>>)
    ensures r.Thrown? <==> v == JNull
    ensures r.Ok? ==> r.value == Property(v, key)
  {
    if v == JNull then Thrown else Ok(Property(v, key))
  }

  /** `o?.key`: a nullish receiver short-circuits to `undefined`. */
  function OptMember(o: Option<Json>, key: string): (r: Option<Json>)
    ensures IsNullish(o) ==> r == None
    ensures !IsNullish(o) ==> r == Property(o.value, key)
  {
    if IsNullish(o) then None else Property(o.value, key)
  }

  function DigitChar(d: nat): (c: char)
    requires d < 10
    ensures '0' <= c <= '9'
  {
    ('0' as int + d) as char
  }

  /** The decimal spelling of a natural number, which is the key `o[i]` reads on an object. */
  function DecimalDigits(n: nat): (r: string)
    ensures |r| > 0
    ensures forall k :: 0 <= k < |r| ==> '0' <= r[k] <= '9'
    decreases n
  {
    if n < 10 then [DigitChar(n)] else DecimalDigits(n / 10) + [DigitChar(n % 10)]
  }

  /** The value a string of decimal digits spells. */
  function DecimalValue(r: string): nat
    requires forall k :: 0 <= k < |r| ==> '0' <= r[k] <= '9'
  {
    if r == [] then 0 else DecimalValue(r[..|r| - 1]) * 10 + (r[|r| - 1] as int - '0' as int)
  }

  /** `DecimalDigits(n)` spells `n`, without a leading zero unless it is `"0"`. */
  lemma {:induction false} DecimalDigitsSpellsValue(n: nat)
    ensures DecimalValue(DecimalDigits(n)) == n
    ensures DecimalDigits(n)[0] == '0' ==> n == 0
    decreases n
  {
    if n >= 10 {
      DecimalDigitsSpellsValue(n / 10);
      var r := DecimalDigits(n);
      assert r[..|r| - 1] == DecimalDigits(n / 10);
    }
  }

  /** `o?.[i]`: an array element, the `i`-th one-character string of a string,
      the property spelled `i` of an object, and `undefined` otherwise. */
  function OptIndex(o: Option<Json>, i: nat): (r: Option<Json>)
    ensures IsNullish(o) ==> r == None
    ensures o.Some? && o.value.JArr? ==> (r.Some? <==> i < |o.value.items|)
    ensures o.Some? && o.value.JArr? && i < |o.value.items| ==> r == Some(o.value.items[i])
    ensures o.Some? && o.value.JStr? ==> r == if i < |o.value.s| then Some(JStr([o.value.s[i]])) else None
    ensures o.Some? && o.value.JObj? ==> r == Property(o.value, DecimalDigits(i))
    ensures o.Some? && (o.value.JBool? || o.value.JNum?) ==> r == None
  {
    if IsNullish(o) then None
    else match o.value
      case JArr(xs) => if i < |xs| then Some(xs[i]) else None
      case JStr(s) => if i < |s| then Some(JStr([s[i]])) else None
      case JObj(_) => Property(o.value, DecimalDigits(i))
      case _ => None
  }

  /** `a ?? b` where `b` may itself be `undefined`. */
  function Coalesce(a: Option<Json>, b: Option<Json>): (r: Option<Json>)
    ensures r == a || r == b
    ensures !IsNullish(a) ==> r == a
    ensures IsNullish(a) ==> r == b
  {
    if IsNullish(a) then b else a
  }

  /** `a ?? d` with a literal default: the result is never `undefined`. */
  function CoalesceOr(a: Option<Json>, d: Json): (r: Json)
    ensures !IsNullish(a) ==> r == a.value
    ensures IsNullish(a) ==> r == d
  {
    if IsNullish(a) then d else a.value
  }

  /** `a || d` with a literal default. */
  function OrElse(a: Option<Json>, d: Json): (r: Json)
    ensures Truthy(a) ==> Some(r) == a
    ensures !Truthy(a) ==> r == d
  {
    if Truthy(a) then a.value else d
  }

  /** `??` and `||` differ exactly on a present value that is falsy but not
      null (such as `""` or `0`): `??` keeps it, `||` falls through. */
  lemma CoalesceVersusOr(a: Option<Json>, d: Json)
    ensures CoalesceOr(a, d) != OrElse(a, d) <==>
            (!IsNullish(a) && !Truthy(a) && a.value != d)
    ensures !IsNullish(a) && !Truthy(a) ==> CoalesceOr(a, d) == a.value
  {
  }

  /** `xs.map(f)` from position `first` on: `f` is applied in order to each
      element and its index, and the first call that throws aborts the whole map. */
  function MapFrom<T>(xs: seq<Json>, f: (Json, nat) -> Outcome<T>, first: nat): (r: Outcome<seq<T>>)
    ensures r.Ok? <==> (forall i :: 0 <= i < |xs| ==> f(xs[i], first + i).Ok?)
    ensures r.Ok? ==> |r.value| == |xs|
    ensures r.Ok? ==> forall i :: 0 <= i < |xs| ==> r.value[i] == f(xs[i], first + i).value
    decreases |xs|
  {
    if xs == [] then Ok([])
    else
      match f(xs[0], first)
      case Thrown => Thrown
      case Ok(y) =>
        var rest := MapFrom(xs[1..], f, first + 1);
        if rest.Thrown? then
          assert exists i :: 0 <= i < |xs| - 1 && !f(xs[1..][i], first + 1 + i).Ok?;
          Thrown
        else
          Ok([y] + rest.value)
  }

  /** `v.map(f)`: a value that is not an array has no callable `map` and throws. */
  function ArrayMap<T>(v: Json, f: (Json, nat) -> Outcome<T>): (r: Outcome<seq<T>>)
    ensures r.Ok? <==> v.JArr? && forall i :: 0 <= i < |v.items| ==> f(v.items[i], i).Ok?
    ensures r.Ok? ==> |r.value| == |v.items|
    ensures r.Ok? ==> forall i :: 0 <= i < |v.items| ==> r.value[i] == f(v.items[i], i).value
  {
    if v.JArr? then MapFrom(v.items, f, 0) else Thrown
  }
}
