/**
 * The in-memory telemetry store behind `/api/temperature`: one module-level
 * reading, returned by `GET` and merged field by field by `POST`.
 *
 * The route does no type checking: a field of the request body replaces the
 * stored field whenever it is truthy in the JavaScript sense (`body.x || old`),
 * whatever its type, and is ignored when it is missing or falsy (`0`, `""`,
 * `false`, `null`). A `null` body parses, but reading `body.temperature` then
 * throws, and that ends in the same 400 response as a body that does not parse.
 */
module TemperatureRoute {

  /** A JavaScript value as `request.json()` produces it, plus `undefined` for a missing property. */
  datatype JsValue =
    | Undefined
    | Null
    | Bool(b: bool)
    | Number(n: real)
    | Str(s: string)
    | Array(items: seq<JsValue>)
    | Object(members: map<string, JsValue>)

  /** JavaScript truthiness (`NaN` and `-0` are not representable on `real`). */
  predicate Truthy(v: JsValue)
  {
    match v
    case Undefined => false
    case Null => false
    case Bool(b) => b
    case Number(n) => n != 0.0
    case Str(s) => s != ""
    case Array(_) => true
    case Object(_) => true
  }

  /** JavaScript's `a || b`: `a` itself when it is truthy, otherwise `b`. */
  function Or(a: JsValue, b: JsValue): (r: JsValue)
    ensures Truthy(a) ==> r == a
    ensures !Truthy(a) ==> r == b
  {
    if Truthy(a) then a else b
  }

  /** The three fields of a reading that a `POST` body may set. */
  datatype Field = Temperature | Humidity | Location

  /** The property name the route reads for a field. */
  function Key(f: Field): string
  {
    match f
    case Temperature => "temperature"
    case Humidity => "humidity"
    case Location => "location"
  }

  /** Reading a property of `null` or `undefined` throws a `TypeError`. */
  predicate Nullish(v: JsValue)
  {
    v.Undefined? || v.Null?
  }

  /**
   * `body[Key(f)]` for a body that is not nullish: an object's own member, or
   * `undefined` when it has none; every other JSON value has no property of these names.
   */
  function Sent(body: JsValue, f: Field): (r: JsValue)
    requires !Nullish(body)
    ensures body.Object? && Key(f) in body.members ==> r == body.members[Key(f)]
    ensures !(body.Object? && Key(f) in body.members) ==> r == Undefined
  {
    match body
    case Object(m) => if Key(f) in m then m[Key(f)] else Undefined
    case _ => Undefined
  }

  /** The stored reading. The source calls its observation time `timestamp` (an ISO string). */
  datatype Reading = Reading(temperature: JsValue, humidity: JsValue, timestamp: string, location: JsValue)
  {
    /** The stored value of one of the three mergeable fields. */
    function Get(f: Field): JsValue
    {
      match f
      case Temperature => temperature
      case Humidity => humidity
      case Location => location
    }
  }

  /** The reading the module starts with; `startedAt` is the clock at module load. */
  function DefaultReading(startedAt: string): (r: Reading)
    ensures r.temperature == Number(25.0) && r.humidity == Number(60.0)
    ensures r.location == Str("Storage Facility") && r.timestamp == startedAt
  {
    Reading(Number(25.0), Number(60.0), startedAt, Str("Storage Facility"))
  }

  /** Every stored field is truthy: the store never holds a missing or empty field. */
  predicate Complete(r: Reading)
  {
    Truthy(r.temperature) && Truthy(r.humidity) && Truthy(r.location)
  }

  /** What `await request.json()` gives: a thrown parse error, or a JSON value (possibly `null`). */
  datatype ParseOutcome = ParseError | Parsed(body: JsValue)

  /** Whether the `try` block of `POST` runs to its end for this request body. */
  predicate Accepted(p: ParseOutcome)
  {
    p.Parsed? && !Nullish(p.body)
  }

  /** The new reading a `POST` computes, or `Invalid` when its `try` block throws. */
  datatype MergeResult = Merged(reading: Reading) | Invalid

  /**
   * The body of `POST`'s `try` block: each field is `body.x || previous.x`, and the
   * timestamp is always the current time `now`.
   */
  function Merge(prev: Reading, p: ParseOutcome, now: string): (r: MergeResult)
    ensures r.Invalid? <==> !Accepted(p)
    ensures r.Merged? ==> r.reading.timestamp == now
  {
    if !Accepted(p) then Invalid
    else
      var body := p.body;
      Merged(Reading(
        Or(Sent(body, Temperature), prev.temperature),
        Or(Sent(body, Humidity), prev.humidity),
        now,
        Or(Sent(body, Location), prev.location)))
  }

  /** The module-level reading after a `POST`: the merged reading, or the old one on a 400. */
  function Next(prev: Reading, p: ParseOutcome, now: string): (r: Reading)
    ensures !Accepted(p) ==> r == prev
    ensures Accepted(p) ==> r.timestamp == now
    ensures Accepted(p) ==> forall f :: Truthy(Sent(p.body, f)) ==> r.Get(f) == Sent(p.body, f)
    ensures Accepted(p) ==> forall f :: !Truthy(Sent(p.body, f)) ==> r.Get(f) == prev.Get(f)
  {
    match Merge(prev, p, now)
    case Merged(r) => r
    case Invalid => prev
  }

  /** A truthy field of an accepted body replaces the stored field, whatever its JSON type. */
  lemma MergeTakesTruthy(prev: Reading, p: ParseOutcome, now: string, f: Field)
    requires Accepted(p) && Truthy(Sent(p.body, f))
    ensures Merge(prev, p, now).Merged?
    ensures Merge(prev, p, now).reading.Get(f) == Sent(p.body, f)
  {
  }

  /** A missing or falsy field (`0`, `""`, `false`, `null`) keeps the stored field. */
  lemma MergeKeepsFalsy(prev: Reading, p: ParseOutcome, now: string, f: Field)
    requires Accepted(p) && !Truthy(Sent(p.body, f))
    ensures Merge(prev, p, now).Merged?
    ensures Merge(prev, p, now).reading.Get(f) == prev.Get(f)
  {
  }

  /** A `0` temperature counts as absent: the previous temperature is kept. */
  lemma ZeroTemperatureIgnored(prev: Reading, now: string)
    ensures Next(prev, Parsed(Object(map["temperature" := Number(0.0)])), now).temperature == prev.temperature
  {
  }

  /** An empty object, or any non-object JSON value, changes only the timestamp. */
  lemma MergeWithoutFieldsRestamps(prev: Reading, p: ParseOutcome, now: string)
    requires Accepted(p) && !p.body.Object?
    ensures Next(prev, p, now) == prev.(timestamp := now)
    ensures Next(prev, Parsed(Object(map[])), now) == prev.(timestamp := now)
  {
  }

  /** A failed parse or a nullish body leaves the stored reading exactly as it was. */
  lemma RejectedLeavesReading(prev: Reading, p: ParseOutcome, now: string)
    requires p.ParseError? || (p.Parsed? && Nullish(p.body))
    ensures Next(prev, p, now) == prev
  {
  }

  /** Merging preserves `Complete`, because only truthy values are ever stored. */
  lemma MergeKeepsComplete(prev: Reading, p: ParseOutcome, now: string)
    requires Complete(prev)
    ensures Complete(Next(prev, p, now))
  {
  }

  /** The scenario the route is meant for: a full reading posted, then read back. */
  lemma FullPostStored(prev: Reading, now: string)
    ensures var body := Object(map["temperature" := Number(4.5), "humidity" := Number(82.0),
                                   "location" := Str("Cold Room B")]);
            Next(prev, Parsed(body), now) == Reading(Number(4.5), Number(82.0), now, Str("Cold Room B"))
  {
  }

  /** The JSON body of a response and its HTTP status. */
  datatype ResponseBody =
    | Current(data: Reading)                  // { success: true, data }
    | Updated(message: string, data: Reading) // { success: true, message, data }
    | Failed(error: string)                   // { success: false, error }
  {
    /** The response's `success` flag. */
    predicate Success()
    {
      !Failed?
    }
  }

  datatype Response = Response(status: nat, body: ResponseBody)

  /** The response `POST` sends for a request body, given the reading it found. */
  function PostResponse(prev: Reading, p: ParseOutcome, now: string): (r: Response)
    ensures r.body.Success() <==> Accepted(p)
    ensures r.body.Success() ==> r.status == 200 && r.body.Updated? && r.body.data == Next(prev, p, now)
    ensures r.body.Success() ==> r.body.message == "Temperature updated successfully"
    ensures !r.body.Success() ==> r.status == 400 && r.body.error == "Invalid request"
  {
    match Merge(prev, p, now)
    case Merged(reading) => Response(200, Updated("Temperature updated successfully", reading))
    case Invalid => Response(400, Failed("Invalid request"))
  }

  /** One `POST` request: its parsed body and the clock when it ran. */
  datatype Post = Post(body: ParseOutcome, now: string)

  /** The reading after a sequence of `POST`s, applied in arrival order. */
  function Replay(r: Reading, posts: seq<Post>): (out: Reading)
    ensures Complete(r) ==> Complete(out)
    ensures (forall i :: 0 <= i < |posts| ==> !Accepted(posts[i].body)) ==> out == r
    decreases |posts|
  {
    if posts == [] then r else Replay(Next(r, posts[0].body, posts[0].now), posts[1..])
  }

  /** Reference definition: the latest truthy value sent for `f`, or `initial` if none was. */
  function LatestWrite(posts: seq<Post>, f: Field, initial: JsValue): JsValue
    decreases |posts|
  {
    if posts == [] then initial
    else
      var last := posts[|posts| - 1];
      if Accepted(last.body) && Truthy(Sent(last.body.body, f)) then Sent(last.body.body, f)
      else LatestWrite(posts[..|posts| - 1], f, initial)
  }

  /** Reference definition: the clock of the latest accepted `POST`, or `initial` if none was. */
  function LatestStamp(posts: seq<Post>, initial: string): string
    decreases |posts|
  {
    if posts == [] then initial
    else
      var last := posts[|posts| - 1];
      if Accepted(last.body) then last.now else LatestStamp(posts[..|posts| - 1], initial)
  }

  /** Replaying `posts` and then one more request is the same as replaying them all. */
  lemma {:induction false} ReplaySnoc(r: Reading, posts: seq<Post>, p: Post)
    ensures Replay(r, posts + [p]) == Next(Replay(r, posts), p.body, p.now)
    decreases |posts|
  {
    if posts == [] {
      assert [p][1..] == [];
    } else {
      assert (posts + [p])[1..] == posts[1..] + [p];
      ReplaySnoc(Next(r, posts[0].body, posts[0].now), posts[1..], p);
    }
  }

  /**
   * After any sequence of `POST`s each field holds its latest truthy write, or the
   * initial value when it was never written, and the timestamp is the clock of the
   * latest accepted request.
   */
  lemma {:induction false} ReplayIsLatestWrite(r: Reading, posts: seq<Post>)
    ensures forall f :: Replay(r, posts).Get(f) == LatestWrite(posts, f, r.Get(f))
    ensures Replay(r, posts).timestamp == LatestStamp(posts, r.timestamp)
    decreases |posts|
  {
    if posts != [] {
      var init, last := posts[..|posts| - 1], posts[|posts| - 1];
      assert posts == init + [last];
      ReplaySnoc(r, init, last);
      ReplayIsLatestWrite(r, init);
    }
  }

  /** The `let temperatureData` singleton of the route module and its two handlers. */
  class TemperatureStore {
    var temperatureData: Reading

    /** The store holds a complete reading at all times. */
    predicate Valid()
      reads this
    {
      Complete(temperatureData)
    }

    /** Module load: the default reading, stamped with the clock `startedAt`. */
    constructor (startedAt: string)
      ensures Valid()
      ensures temperatureData == DefaultReading(startedAt)
    {
      temperatureData := DefaultReading(startedAt);
    }

    /** `GET`: 200 with `success: true` and the stored reading; nothing changes. */
    method Get() returns (r: Response)
      requires Valid()
      ensures r.status == 200 && r.body.Success()
      ensures Complete(r.body.data)
      ensures r.body.Current? && r.body.data == temperatureData
    {
      r := Response(200, Current(temperatureData));
    }

    /** `POST`: merge the body into the stored reading, or answer 400 and change nothing. */
    method Post(p: ParseOutcome, now: string) returns (r: Response)
      requires Valid()
      modifies this
      ensures Valid()
      ensures temperatureData == Next(old(temperatureData), p, now)
      ensures r == PostResponse(old(temperatureData), p, now)
      ensures r.body.Success() ==> r.body.data == temperatureData
      ensures !r.body.Success() ==> temperatureData == old(temperatureData)
    {
      MergeKeepsComplete(temperatureData, p, now);
      match Merge(temperatureData, p, now)
      case Merged(reading) =>
        temperatureData := reading;
        r := Response(200, Updated("Temperature updated successfully", temperatureData));
      case Invalid =>
        r := Response(400, Failed("Invalid request"));
    }
  }
}
