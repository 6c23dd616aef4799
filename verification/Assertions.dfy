/** Response assertions from a scenario file to the verdict on a worker: parse, encode, decode, check. */
module Assertions {
  import opened GoInts
  import opened Lists
  import opened Results

  /** An assertion as written: at most one field is meant to be set, and the first set one wins. */
  datatype YamlAssertion = YamlAssertion(statusCode: Option<int>, p99: Option<int>, p95: Option<int>, p50: Option<int>,
                                         bodyContains: Option<string>)

  datatype Kind = Unset | StatusCode | ResponseTime | BodyContains | OtherKind(name: string)

  /** An `interface{}` value: only its own type matches a type switch. */
  datatype Any = Nil | Int(n: int) | Int32Value(n32: int) | Str(s: string) | Duration(ns: int)

  datatype Assertion = Assertion(kind: Kind, value: Any, threshold: Any)

  datatype ProtoAssertion =
    | ProtoStatusCode(expected: int)
    | ProtoResponseTime(percentile: string, maxMs: int)
    | ProtoBodyContains(substring: string)

  datatype Response = Response(status: int, duration: int, body: string)

  // ---------- the four conversions, one element at a time ----------

  predicate IsInt32(n: int) {
    INT32_MIN <= n <= INT32_MAX
  }

  /** Every number in a scenario file is an int32. */
  predicate Typed(y: YamlAssertion) {
    forall o :: o in {y.statusCode, y.p99, y.p95, y.p50} && o.Some? ==> IsInt32(o.value)
  }

  function ParseOne(y: YamlAssertion): Assertion {
    if y.statusCode.Some? then Assertion(StatusCode, Int32Value(y.statusCode.value), Nil)
    else if y.p99.Some? then Assertion(ResponseTime, Str("P99"), Duration(y.p99.value * NS_PER_MS))
    else if y.p95.Some? then Assertion(ResponseTime, Str("P95"), Duration(y.p95.value * NS_PER_MS))
    else if y.p50.Some? then Assertion(ResponseTime, Str("P50"), Duration(y.p50.value * NS_PER_MS))
    else if y.bodyContains.Some? then Assertion(BodyContains, Str(y.bodyContains.value), Nil)
    else Assertion(Unset, Nil, Nil)
  }

  function Text(v: Any): string {
    if v.Str? then v.s else ""
  }

  function Code(v: Any): int {
    match v
    case Int(n) => Int32(n)
    case Int32Value(n) => n
    case _ => 0
  }

  function Millis(v: Any): int {
    Int32(Quotient(if v.Duration? then v.ns else 0, NS_PER_MS))
  }

  function EncodeOne(a: Assertion): Option<ProtoAssertion> {
    match a.kind
    case StatusCode => Some(ProtoStatusCode(Code(a.value)))
    case ResponseTime => Some(ProtoResponseTime(Text(a.value), Millis(a.threshold)))
    case BodyContains => Some(ProtoBodyContains(Text(a.value)))
    case _ => None
  }

  function DecodeOne(p: ProtoAssertion): Assertion {
    match p
    case ProtoStatusCode(expected) => Assertion(StatusCode, Int(expected), Nil)
    case ProtoResponseTime(percentile, maxMs) => Assertion(ResponseTime, Str(percentile), Duration(maxMs * NS_PER_MS))
    case ProtoBodyContains(substring) => Assertion(BodyContains, Str(substring), Nil)
  }

  predicate Contains(body: string, sub: string) {
    exists i | 0 <= i <= |body| :: sub <= body[i..]
  }

  /** `checkAssertion`: a value of the wrong type fails, an unknown kind passes. */
  predicate Passes(a: Assertion, r: Response) {
    match a.kind
    case StatusCode => (a.value.Int? && r.status == a.value.n) || (a.value.Int32Value? && r.status == a.value.n32)
    case ResponseTime => a.threshold.Duration? && r.duration <= a.threshold.ns
    case BodyContains => a.value.Str? && Contains(r.body, a.value.s)
    case _ => true
  }

  // ---------- lists ----------

  function Parsed(ys: seq<YamlAssertion>): seq<Assertion> {
    if ys == [] then []
    else
      var init, last := Parsed(ys[..|ys| - 1]), ParseOne(ys[|ys| - 1]);
      if last.kind == Unset then init else init + [last]
  }

  function Encoded(s: seq<Assertion>): seq<ProtoAssertion> {
    if s == [] then []
    else
      var init, last := Encoded(s[..|s| - 1]), EncodeOne(s[|s| - 1]);
      if last.None? then init else init + [last.value]
  }

  function Decoded(ps: seq<ProtoAssertion>): seq<Assertion> {
    if ps == [] then [] else Decoded(ps[..|ps| - 1]) + [DecodeOne(ps[|ps| - 1])]
  }

  /** What the worker executes for a list of assertions held by the controller. */
  function OnWorker(s: seq<Assertion>): seq<Assertion> {
    Decoded(Encoded(s))
  }

  /** Whether a request succeeded, and the assertion blamed if not: the last one that failed. */
  datatype Verdict = Verdict(success: bool, blamed: Option<Kind>)

  function VerdictOf(s: seq<Assertion>, r: Response): Verdict {
    if s == [] then Verdict(200 <= r.status < 300, None)
    else
      var before, last := VerdictOf(s[..|s| - 1], r), s[|s| - 1];
      if Passes(last, r) then before else Verdict(false, Some(last.kind))
  }

  /** A request succeeds exactly with a 2xx status and every assertion passing. */
  lemma {:induction false} SuccessIsConjunction(s: seq<Assertion>, r: Response)
    ensures VerdictOf(s, r).success <==> 200 <= r.status < 300 && forall a :: a in s ==> Passes(a, r)
    ensures VerdictOf(s, r).blamed == None <==> forall a :: a in s ==> Passes(a, r)
  {
    if s != [] {
      SuccessIsConjunction(s[..|s| - 1], r);
      assert s == s[..|s| - 1] + [s[|s| - 1]];
    }
  }

  lemma VerdictSnoc(s: seq<Assertion>, a: Assertion, r: Response)
    ensures VerdictOf(s + [a], r) == if Passes(a, r) then VerdictOf(s, r) else Verdict(false, Some(a.kind))
  {
    assert (s + [a])[..|s + [a]| - 1] == s;
  }

  lemma DecodedSnoc(ps: seq<ProtoAssertion>, p: ProtoAssertion)
    ensures Decoded(ps + [p]) == Decoded(ps) + [DecodeOne(p)]
  {
    assert (ps + [p])[..|ps + [p]| - 1] == ps;
  }

  // ---------- what the wire keeps ----------

  /** Responses are measured with a monotonic clock. */
  predicate Measured(r: Response) {
    r.duration >= 0
  }

  /** An assertion means the same on the worker for this response. */
  predicate SameVerdict(a: Assertion, r: Response) {
    match EncodeOne(a)
    case None => Passes(a, r)
    case Some(p) => Passes(a, r) == Passes(DecodeOne(p), r)
  }

  lemma {:induction false} WireKeepsVerdict(s: seq<Assertion>, r: Response)
    requires forall a :: a in s ==> SameVerdict(a, r)
    ensures VerdictOf(OnWorker(s), r) == VerdictOf(s, r)
  {
    if s != [] {
      var init, last := s[..|s| - 1], s[|s| - 1];
      WireKeepsVerdict(init, r);
      assert SameVerdict(last, r);
      if EncodeOne(last).Some? {
        DecodedSnoc(Encoded(init), EncodeOne(last).value);
        VerdictSnoc(OnWorker(init), DecodeOne(EncodeOne(last).value), r);
      }
    }
  }

  /** Whole milliseconds that fit an int32 are what a response-time limit survives as. */
  predicate WholeMillis(ns: int) {
    ns % NS_PER_MS == 0 && IsInt32(ns / NS_PER_MS)
  }

  lemma MillisKeep(ns: int)
    ensures Millis(Duration(ns)) * NS_PER_MS == ns <==> WholeMillis(ns)
  {
    var q := Quotient(ns, NS_PER_MS);
    assert ns % NS_PER_MS == 0 ==> q * NS_PER_MS == ns && q == ns / NS_PER_MS;
  }

  /** What a caller must check: the value has the type the kind calls for, and fits the wire. */
  predicate FitsWire(a: Assertion) {
    match a.kind
    case StatusCode => (a.value.Int? && IsInt32(a.value.n)) || a.value.Int32Value?
    case ResponseTime =>
      && a.threshold.Duration?
      && (WholeMillis(a.threshold.ns) || (a.threshold.ns < 0 && Millis(a.threshold) < 0))
    case BodyContains => a.value.Str?
    case _ => true
  }

  lemma FittingKeepsVerdict(a: Assertion, r: Response)
    requires FitsWire(a) && Measured(r)
    ensures SameVerdict(a, r)
  {
    if a.kind == ResponseTime {
      MillisKeep(a.threshold.ns);
    }
  }

  lemma LimitsDiffer(a: Assertion) returns (r: Response)
    requires a.kind == ResponseTime && a.threshold.Duration? && !FitsWire(a)
    ensures Measured(r) && !SameVerdict(a, r)
  {
    MillisKeep(a.threshold.ns);
    var before, after := a.threshold.ns, Millis(a.threshold) * NS_PER_MS;
    r := Response(200, if before < after then after else before, "");
  }

  /** An assertion that does not fit the wire is judged differently on some response. */
  lemma UnfittingChangesVerdict(a: Assertion) returns (r: Response)
    requires !FitsWire(a)
    ensures Measured(r) && !SameVerdict(a, r)
  {
    match a.kind
    case StatusCode =>
      r := Response(Code(a.value), 0, "");
    case ResponseTime =>
      if a.threshold.Duration? { r := LimitsDiffer(a); } else { r := Response(200, 0, ""); }
    case BodyContains =>
      r := Response(200, 0, "");
      assert "" <= r.body[0..];
  }

  /** The wire keeps an assertion's verdict on every response exactly when the assertion fits it. */
  lemma WireKeepsVerdictIff(a: Assertion)
    ensures (forall r :: Measured(r) ==> SameVerdict(a, r)) <==> FitsWire(a)
  {
    if FitsWire(a) {
      forall r | Measured(r) ensures SameVerdict(a, r) { FittingKeepsVerdict(a, r); }
    } else {
      var r := UnfittingChangesVerdict(a);
    }
  }

  lemma ParsedOneFits(y: YamlAssertion)
    requires Typed(y)
    ensures FitsWire(ParseOne(y))
  {
    var limit := if y.p99.Some? then y.p99 else if y.p95.Some? then y.p95 else y.p50;
    assert y.p99.Some? || y.p95.Some? || y.p50.Some? ==> IsInt32(limit.value);
  }

  lemma {:induction false} ParsedFits(ys: seq<YamlAssertion>)
    requires forall y :: y in ys ==> Typed(y)
    ensures forall a :: a in Parsed(ys) ==> FitsWire(a)
  {
    if ys != [] {
      ParsedFits(ys[..|ys| - 1]);
      ParsedOneFits(ys[|ys| - 1]);
    }
  }

  /** Every parsed assertion list gives the same verdict, with the same blame, on every response after the wire. */
  lemma ParsedVerdictSurvivesWire(ys: seq<YamlAssertion>, r: Response)
    requires (forall y :: y in ys ==> Typed(y)) && Measured(r)
    ensures VerdictOf(OnWorker(Parsed(ys)), r) == VerdictOf(Parsed(ys), r)
  {
    ParsedFits(ys);
    forall a | a in Parsed(ys) ensures SameVerdict(a, r) { FittingKeepsVerdict(a, r); }
    WireKeepsVerdict(Parsed(ys), r);
  }

  // ---------- what a verdict means ----------

  /** `strings.Contains`: the text occurs somewhere in the body. */
  lemma ContainsIff(body: string, sub: string)
    ensures Contains(body, sub) <==> exists pre, post :: body == pre + sub + post
  {
    if Contains(body, sub) {
      var i :| 0 <= i <= |body| && sub <= body[i..];
      assert body == body[..i] + sub + body[i..][|sub|..];
    }
    forall pre, post | body == pre + sub + post ensures Contains(body, sub) {
      assert body[|pre|..] == sub + post;
    }
  }

  /** The code an assertion expects, the limit, and the text, decide a 2xx response by its own fields. */
  lemma OneVerdict(a: Assertion, r: Response)
    requires 200 <= r.status < 300
    ensures a.kind == StatusCode && a.value.Int? ==> (VerdictOf([a], r).success <==> r.status == a.value.n)
    ensures a.kind == StatusCode && a.value.Int32Value? ==> (VerdictOf([a], r).success <==> r.status == a.value.n32)
    ensures a.kind == ResponseTime && a.threshold.Duration? ==>
      (VerdictOf([a], r).success <==> r.duration <= a.threshold.ns)
    ensures a.kind == BodyContains && a.value.Str? ==>
      (VerdictOf([a], r).success <==> exists pre, post :: r.body == pre + a.value.s + post)
    ensures a.kind == StatusCode && !a.value.Int? && !a.value.Int32Value? ==> !VerdictOf([a], r).success
    ensures a.kind == ResponseTime && !a.threshold.Duration? ==> !VerdictOf([a], r).success
    ensures a.kind == BodyContains && !a.value.Str? ==> !VerdictOf([a], r).success
    ensures a.kind == Unset || a.kind.OtherKind? ==> VerdictOf([a], r).success
    ensures VerdictOf([a], r).blamed == if VerdictOf([a], r).success then None else Some(a.kind)
  {
    assert [a][..0] == [];
    if a.kind == BodyContains && a.value.Str? { ContainsIff(r.body, a.value.s); }
  }

  /** Without a 2xx status no assertion helps, and of several failing ones the last is blamed. */
  lemma {:induction false} LastFailureIsBlamed(s: seq<Assertion>, r: Response, k: nat)
    requires k < |s| && !Passes(s[k], r) && forall j :: k < j < |s| ==> Passes(s[j], r)
    ensures VerdictOf(s, r) == Verdict(false, Some(s[k].kind))
  {
    if k < |s| - 1 {
      LastFailureIsBlamed(s[..|s| - 1], r, k);
    }
  }

  /** What is parsed from an entry: the first field set, in this order, decides the kind and what is expected. */
  lemma ParsedFields(y: YamlAssertion)
    ensures y.statusCode.Some? ==> ParseOne(y).kind == StatusCode && ParseOne(y).value == Int32Value(y.statusCode.value)
    ensures y.statusCode.None? && y.p99.Some? ==>
      ParseOne(y).kind == ResponseTime && ParseOne(y).threshold == Duration(y.p99.value * 1_000_000)
    ensures y.statusCode.None? && y.p99.None? && y.p95.Some? ==>
      ParseOne(y).kind == ResponseTime && ParseOne(y).threshold == Duration(y.p95.value * 1_000_000)
    ensures y.statusCode.None? && y.p99.None? && y.p95.None? && y.p50.Some? ==>
      ParseOne(y).kind == ResponseTime && ParseOne(y).threshold == Duration(y.p50.value * 1_000_000)
    ensures y == YamlAssertion(None, None, None, None, y.bodyContains) && y.bodyContains.Some? ==>
      ParseOne(y).kind == BodyContains && ParseOne(y).value == Str(y.bodyContains.value)
    ensures y == YamlAssertion(None, None, None, None, None) <==> ParseOne(y).kind == Unset
  {
  }

  /** Entries are parsed one by one, and only those with no field set are dropped. */
  lemma {:induction false} ParsedConcat(a: seq<YamlAssertion>, b: seq<YamlAssertion>)
    ensures Parsed(a + b) == Parsed(a) + Parsed(b)
  {
    if b == [] {
      assert a + b == a;
    } else {
      ParsedConcat(a, b[..|b| - 1]);
      ConcatSnoc(a, b);
    }
  }

  lemma ParsedOne(y: YamlAssertion)
    ensures Parsed([y]) == if y == YamlAssertion(None, None, None, None, None) then [] else [ParseOne(y)]
  {
    assert [y][..0] == [];
  }

  /** From an entry in a scenario file, over the wire, to the verdict, by the fields of the entry and the response. */
  lemma ScenarioVerdict(y: YamlAssertion, r: Response)
    requires Typed(y) && Measured(r)
    ensures VerdictOf(OnWorker(Parsed([y])), r).success <==>
      && 200 <= r.status < 300
      && if y.statusCode.Some? then r.status == y.statusCode.value
         else if y.p99.Some? then r.duration <= y.p99.value * 1_000_000
         else if y.p95.Some? then r.duration <= y.p95.value * 1_000_000
         else if y.p50.Some? then r.duration <= y.p50.value * 1_000_000
         else if y.bodyContains.Some? then exists pre, post :: r.body == pre + y.bodyContains.value + post
         else true
  {
    var a := ParseOne(y);
    assert [y][..0] == [] && Parsed([y]) == if a.kind == Unset then [] else [a];
    ParsedVerdictSurvivesWire([y], r);
    ParsedFields(y);
    if 200 <= r.status < 300 {
      OneVerdict(a, r);
    } else {
      SuccessIsConjunction(Parsed([y]), r);
    }
  }

  // ---------- the loops ----------

  method ParseAssertions(ys: seq<YamlAssertion>) returns (out: seq<Assertion>)
    ensures out == Parsed(ys)
  {
    out := [];
    for i := 0 to |ys|
      invariant out == Parsed(ys[..i])
    {
      var assertion := ParseOne(ys[i]);
      if assertion.kind != Unset {
        out := out + [assertion];
      }
      assert ys[..i + 1][..i] == ys[..i];
    }
    assert ys[..|ys|] == ys;
  }

  method AssertionsToProto(s: seq<Assertion>) returns (out: seq<ProtoAssertion>)
    ensures out == Encoded(s)
  {
    out := [];
    for i := 0 to |s|
      invariant out == Encoded(s[..i])
    {
      var proto := EncodeOne(s[i]);
      if proto.Some? {
        out := out + [proto.value];
      }
      assert s[..i + 1][..i] == s[..i];
    }
    assert s[..|s|] == s;
  }

  method DecodeAssertions(ps: seq<ProtoAssertion>) returns (out: seq<Assertion>)
    ensures out == Decoded(ps)
  {
    out := [];
    for i := 0 to |ps|
      invariant out == Decoded(ps[..i])
    {
      out := out + [DecodeOne(ps[i])];
      assert ps[..i + 1][..i] == ps[..i];
    }
    assert ps[..|ps|] == ps;
  }

  /** The assertion loop of executeRequest. */
  method CheckResponse(s: seq<Assertion>, r: Response) returns (success: bool, blamed: Option<Kind>)
    ensures Verdict(success, blamed) == VerdictOf(s, r)
    ensures success <==> 200 <= r.status < 300 && forall a :: a in s ==> Passes(a, r)
  {
    SuccessIsConjunction(s, r);
    success, blamed := 200 <= r.status < 300, None;
    for i := 0 to |s|
      invariant Verdict(success, blamed) == VerdictOf(s[..i], r)
    {
      if !Passes(s[i], r) {
        success, blamed := false, Some(s[i].kind);
      }
      assert s[..i + 1][..i] == s[..i];
    }
    assert s[..|s|] == s;
  }
}
