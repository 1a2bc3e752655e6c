/** The vocabulary of Elasticsearch requests and responses the handlers
    build and read: `bool.must` filter clauses, time-range clauses in the two
    encodings the code uses, `hits.total` normalisation and the two places a
    response may carry its aggregations. */
module Query {
  import opened Common

  /** A JavaScript `Date`: a valid instant (epoch milliseconds) or Invalid Date. */
  datatype Instant = At(ms: int) | InvalidDate

  /** A term value; `NotANumber` is what `parseInt` puts there on garbage. */
  datatype Value = Str(s: string) | Num(n: int) | NotANumber

  /** A range bound: `date.getTime()` (NaN for an invalid date),
      `date.toISOString()` (only of a valid date; it throws otherwise) or a
      plain number. */
  datatype Bound = Millis(t: Instant) | Iso(ms: int) | Plain(n: int)

  /** One element of a `bool.must` list. */
  datatype Clause =
    | Term(field: string, value: Value)
    | Match(field: string, text: string)
    | Range(field: string, gte: Option<Bound>, lte: Option<Bound>)

  const TIME_FIELD := "userTimeStamp"

  /** `{ term: { appId } }`, the tenant filter. */
  function TenantTerm(appId: string): Clause {
    Term("appId", Str(appId))
  }

  /** `{ term: { type } }`, the event-kind filter. */
  function KindTerm(kind: string): Clause {
    Term("type", Str(kind))
  }

  /** `{ term: { requestType } }`, the HTTP outcome filter. */
  function OutcomeTerm(outcome: string): Clause {
    Term("requestType", Str(outcome))
  }

  /** The service-layer time filter: a range on the event time as soon as
      either bound is known, with exactly the known bounds, in milliseconds. */
  function EitherBoundRange(start: Option<int>, end: Option<int>): (r: seq<Clause>)
    ensures |r| == (if start.Some? || end.Some? then 1 else 0)
    ensures |r| == 1 ==> r[0].Range? && r[0].field == TIME_FIELD
    ensures |r| == 1 ==> (r[0].gte.Some? <==> start.Some?) && (r[0].lte.Some? <==> end.Some?)
    ensures |r| == 1 && start.Some? ==> r[0].gte.value == Millis(At(start.value))
    ensures |r| == 1 && end.Some? ==> r[0].lte.value == Millis(At(end.value))
  {
    if start.None? && end.None? then []
    else
      var gte := if start.Some? then Some(Millis(At(start.value))) else None;
      var lte := if end.Some? then Some(Millis(At(end.value))) else None;
      [Range(TIME_FIELD, gte, lte)]
  }

  /** The route-layer time filter with `getTime()` bounds: present only when
      both the `startTime` and `endTime` parameters are non-empty. */
  function BothBoundsMillis(start: Option<string>, end: Option<string>, parse: string -> Instant): (r: seq<Clause>)
    ensures |r| == (if Present(start) && Present(end) then 1 else 0)
    ensures |r| == 1 ==> r[0] == Range(TIME_FIELD, Some(Millis(parse(start.value))), Some(Millis(parse(end.value))))
  {
    if Present(start) && Present(end) then
      [Range(TIME_FIELD, Some(Millis(parse(start.value))), Some(Millis(parse(end.value))))]
    else []
  }

  /** The route-layer time filter with `toISOString()` bounds. An invalid
      date makes `toISOString` throw before the store is called. */
  function BothBoundsIso(start: Option<string>, end: Option<string>, parse: string -> Instant): (r: Fetch<seq<Clause>>)
    ensures !(Present(start) && Present(end)) ==> r == Fetched([])
    ensures Present(start) && Present(end) ==>
              (r.Threw? <==> parse(start.value).InvalidDate? || parse(end.value).InvalidDate?)
    ensures r.Fetched? && Present(start) && Present(end) ==>
              r.value == [Range(TIME_FIELD, Some(Iso(parse(start.value).ms)), Some(Iso(parse(end.value).ms)))]
  {
    if !(Present(start) && Present(end)) then Fetched([])
    else match (parse(start.value), parse(end.value))
      case (At(s), At(e)) => Fetched([Range(TIME_FIELD, Some(Iso(s)), Some(Iso(e)))])
      case _ => Threw
  }

  /** `{ match: { field: text } }` when the parameter is non-empty. */
  function MatchIfPresent(field: string, text: Option<string>): (r: seq<Clause>)
    ensures |r| == (if Present(text) then 1 else 0)
    ensures |r| == 1 ==> r[0] == Match(field, text.value)
  {
    if Present(text) then [Match(field, text.value)] else []
  }

  /** Whether the filter holds a range clause on `field`. */
  predicate HasRangeOn(must: seq<Clause>, field: string) {
    exists i :: 0 <= i < |must| && must[i].Range? && must[i].field == field
  }

  /** Whether the filter holds a match clause on `field`. */
  predicate HasMatchOn(must: seq<Clause>, field: string) {
    exists i :: 0 <= i < |must| && must[i].Match? && must[i].field == field
  }

  /** Whether the filter holds a term clause on `field`. */
  predicate HasTermOn(must: seq<Clause>, field: string) {
    exists i :: 0 <= i < |must| && must[i].Term? && must[i].field == field
  }

  /** The three presence tests distribute over joining two filters. */
  lemma HasOnConcat(a: seq<Clause>, b: seq<Clause>, field: string)
    ensures HasRangeOn(a + b, field) <==> HasRangeOn(a, field) || HasRangeOn(b, field)
    ensures HasMatchOn(a + b, field) <==> HasMatchOn(a, field) || HasMatchOn(b, field)
    ensures HasTermOn(a + b, field) <==> HasTermOn(a, field) || HasTermOn(b, field)
  {
    var ab := a + b;
    forall i | 0 <= i < |b| ensures ab[|a| + i] == b[i] { }
    forall i | 0 <= i < |a| ensures ab[i] == a[i] { }
    if HasRangeOn(ab, field) {
      var i :| 0 <= i < |ab| && ab[i].Range? && ab[i].field == field;
      if i >= |a| { assert b[i - |a|] == ab[i]; }
    }
    if HasMatchOn(ab, field) {
      var i :| 0 <= i < |ab| && ab[i].Match? && ab[i].field == field;
      if i >= |a| { assert b[i - |a|] == ab[i]; }
    }
    if HasTermOn(ab, field) {
      var i :| 0 <= i < |ab| && ab[i].Term? && ab[i].field == field;
      if i >= |a| { assert b[i - |a|] == ab[i]; }
    }
  }

  /** The presence tests on a filter of at most one clause. */
  lemma HasOnOptional(c: seq<Clause>, field: string)
    requires |c| <= 1
    ensures HasRangeOn(c, field) <==> |c| == 1 && c[0].Range? && c[0].field == field
    ensures HasMatchOn(c, field) <==> |c| == 1 && c[0].Match? && c[0].field == field
    ensures HasTermOn(c, field) <==> |c| == 1 && c[0].Term? && c[0].field == field
  {
  }

  /** A filter of term clauses only has no range and no match. */
  lemma HasOnTermsOnly(c: seq<Clause>, field: string)
    requires forall i :: 0 <= i < |c| ==> c[i].Term?
    ensures !HasRangeOn(c, field) && !HasMatchOn(c, field)
  {
  }

  /** The presence tests on a filter joined from four parts. */
  lemma HasOnConcat4(a: seq<Clause>, b: seq<Clause>, c: seq<Clause>, d: seq<Clause>, field: string)
    ensures HasRangeOn(a + b + c + d, field) <==>
              HasRangeOn(a, field) || HasRangeOn(b, field) || HasRangeOn(c, field) || HasRangeOn(d, field)
    ensures HasMatchOn(a + b + c + d, field) <==>
              HasMatchOn(a, field) || HasMatchOn(b, field) || HasMatchOn(c, field) || HasMatchOn(d, field)
    ensures HasTermOn(a + b + c + d, field) <==>
              HasTermOn(a, field) || HasTermOn(b, field) || HasTermOn(c, field) || HasTermOn(d, field)
  {
    HasOnConcat(a, b, field);
    HasOnConcat(a + b, c, field);
    HasOnConcat(a + b + c, d, field);
  }

  /** `hits.total`: a number in older clients, `{ value }` in newer ones. */
  datatype HitsTotal = TotalNumber(n: nat) | TotalObject(value: Option<nat>) | TotalMissing

  /** `typeof total === 'number' ? total : total?.value || 0`. */
  function NormaliseTotal(t: HitsTotal): (n: nat)
    ensures t.TotalNumber? ==> n == t.n
    ensures t.TotalObject? && t.value.Some? ==> n == t.value.value
    ensures t.TotalMissing? || (t.TotalObject? && t.value.None?) ==> n == 0
  {
    match t
    case TotalNumber(n) => n
    case TotalObject(v) => OrZero(v)
    case TotalMissing => 0
  }

  /** A search response: `result.body?.<part>` and `result.<part>`, the two
      places a client version may carry the aggregations or hits. */
  datatype Envelope<+A> = Envelope(body: Option<A>, top: Option<A>)

  /** `result.body?.<part> || result.<part>`. */
  function BodyOrTop<A>(e: Envelope<A>): (r: Option<A>)
    ensures e.body.Some? ==> r == e.body
    ensures e.body.None? ==> r == e.top
  {
    if e.body.Some? then e.body else e.top
  }

  /** A histogram bucket's time as a response shows it: the store's
      `key_as_string`, or the ISO form of the numeric key when that label is
      absent or empty. */
  datatype TimeLabel = Label(text: string) | IsoOfKey(ms: int)

  function TimeLabelOf(keyAsString: Option<string>, key: int): (t: TimeLabel)
    ensures Present(keyAsString) ==> t == Label(keyAsString.value)
    ensures !Present(keyAsString) ==> t == IsoOfKey(key)
  {
    if Present(keyAsString) then Label(keyAsString.value) else IsoOfKey(key)
  }

  /** A `terms` bucket: its key and `doc_count`. */
  datatype KeyBucket<+K> = KeyBucket(key: K, docCount: nat)

  /** A `date_histogram` bucket without sub-aggregations. */
  datatype HistBucket = HistBucket(key: int, keyAsString: Option<string>, docCount: nat)

  /** `(buckets || []).map(b => ({ <name>: b.key, count: b.doc_count }))`:
      one (key, count) pair per bucket, in bucket order. */
  function KeyCounts<K>(buckets: Option<seq<KeyBucket<K>>>): (rows: seq<(K, nat)>)
    ensures buckets.None? ==> rows == []
    ensures buckets.Some? ==> |rows| == |buckets.value|
    ensures buckets.Some? ==> forall i :: 0 <= i < |rows| ==>
              rows[i] == (buckets.value[i].key, buckets.value[i].docCount)
  {
    var bs := OrEmpty(buckets);
    seq(|bs|, i requires 0 <= i < |bs| => (bs[i].key, bs[i].docCount))
  }

  /** The time-distribution rows: one (time, count) pair per bucket. */
  function TimeCounts(buckets: Option<seq<HistBucket>>): (rows: seq<(TimeLabel, nat)>)
    ensures buckets.None? ==> rows == []
    ensures buckets.Some? ==> |rows| == |buckets.value|
    ensures buckets.Some? ==> forall i :: 0 <= i < |rows| ==>
              rows[i] == (TimeLabelOf(buckets.value[i].keyAsString, buckets.value[i].key), buckets.value[i].docCount)
  {
    var bs := OrEmpty(buckets);
    seq(|bs|, i requires 0 <= i < |bs| => (TimeLabelOf(bs[i].keyAsString, bs[i].key), bs[i].docCount))
  }
}
