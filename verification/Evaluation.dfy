/** How much the evidence is worth and what verdict it earns, in exact arithmetic. */
module Evaluation {
  import opened Common
  import opened Miner

  const MIN_SUPPORT := 3
  const ACCEPT_FLOOR := 55
  const RECENCY_SECS := 30 * 86_400

  datatype KindGroup = Decision | Validation | Change | Error | Observation | Ignored

  /** One cited event as evaluation sees it. */
  datatype Member = Member(id: int, group: KindGroup, polarity: Polarity, createdAt: nat, session: Option<string>,
      workspace: string)

  function Weight(g: KindGroup, p: Polarity): real {
    match g
    case Decision => 1.0
    case Validation => if p == Neutral then 0.6 else 1.0
    case Error => if p == Neutral then 0.6 else 1.0
    case Change => 0.6
    case Observation => 0.3
    case Ignored => 0.0
  }

  function TotalWeight(ms: seq<Member>): real {
    if ms == [] then 0.0 else TotalWeight(ms[..|ms| - 1]) + Weight(ms[|ms| - 1].group, ms[|ms| - 1].polarity)
  }

  predicate IsRecent(m: Member, now: nat) { now <= m.createdAt || now - m.createdAt <= RECENCY_SECS }

  function Recent(ms: seq<Member>, now: nat): nat {
    if ms == [] then 0 else Recent(ms[..|ms| - 1], now) + if IsRecent(ms[|ms| - 1], now) then 1 else 0
  }

  /** Distinct sessions, all unlinked events counting as one. */
  function Diversity(ms: seq<Member>): nat {
    |set m <- ms | m.session.Some? :: m.session.value| + if exists m <- ms :: m.session.None? then 1 else 0
  }

  function AtMostOne(x: real): real { if x < 1.0 then x else 1.0 }

  function Consistency(s: nat, c: nat): real
    requires s > 0
  {
    (s as real - c as real) / (s as real + c as real)
  }

  function Base(sup: seq<Member>, c: nat, now: nat): real
    requires sup != []
  {
    var s := |sup| as real;
    AtMostOne(s / 5.0) * 0.25
    + TotalWeight(sup) / s * 0.20
    + Consistency(|sup|, c) * 0.35
    + Recent(sup, now) as real / s * 0.10
    + AtMostOne(Diversity(sup) as real / 3.0) * 0.10
  }

  function Clamped(x: real): real { if x < 0.05 then 0.05 else if x > 0.95 then 0.95 else x }

  /** Rounded to hundredths, halves up. */
  function Hundredths(x: real): int { (x * 100.0 + 0.5).Floor }

  function Confidence(sup: seq<Member>, c: nat, now: nat): (h: int)
    ensures 5 <= h <= 95
  {
    if sup == [] then 5
    else
      var x := Clamped(Base(sup, c, now));
      assert 5.0 <= x * 100.0 <= 95.0;
      Hundredths(x)
  }

  // ── Contradiction never helps ──────────────────────────────────────────

  lemma SignOfFactor(x: real, y: real)
    requires y > 0.0 && x * y >= 0.0
    ensures x >= 0.0
  {}

  lemma RatiosCompare(a: real, b: real, c: real, d: real)
    requires b > 0.0 && d > 0.0 && a * d <= c * b
    ensures a / b <= c / d
  {
    var p, q := a / b, c / d;
    assert p * b == a && q * d == c;
    assert (q - p) * (b * d) == (q * d) * b - (p * b) * d;
    assert b * d > 0.0;
    SignOfFactor(q - p, b * d);
  }

  lemma ConsistencyFalls(s: nat, c: nat, d: nat)
    requires s > 0 && c <= d
    ensures Consistency(s, d) <= Consistency(s, c)
  {
    CrossTerms(s as real, c as real, d as real);
    RatiosCompare(s as real - d as real, s as real + d as real, s as real - c as real, s as real + c as real);
  }

  lemma CrossTerms(t: real, x: real, y: real)
    requires t >= 0.0 && x <= y
    ensures (t - y) * (t + x) <= (t - x) * (t + y)
  {
    NotNegative(t, y - x);
    assert (t - x) * (t + y) - (t - y) * (t + x) == 2.0 * (t * (y - x));
  }

  lemma NotNegative(a: real, b: real)
    requires a >= 0.0 && b >= 0.0
    ensures a * b >= 0.0
  {}

  /** With the support fixed, more contradiction never raises the confidence. */
  lemma ConfidenceFalls(sup: seq<Member>, c: nat, d: nat, now: nat)
    requires c <= d
    ensures Confidence(sup, d, now) <= Confidence(sup, c, now)
  {
    if sup != [] {
      ConsistencyFalls(|sup|, c, d);
      var x, y := Clamped(Base(sup, d, now)), Clamped(Base(sup, c, now));
      assert x <= y;
      assert (x * 100.0 + 0.5).Floor <= (y * 100.0 + 0.5).Floor;
    }
  }

  // ── Verdicts ───────────────────────────────────────────────────────────

  datatype Reason = Insufficient | NotGlobal | Contested | Weak

  datatype Verdict = Accepted | Deferred(why: Reason) | Rejected

  function Workspaces(ms: seq<Member>): nat { |set m <- ms :: m.workspace| }

  /** The ladder, top down. */
  function Judge(global: bool, sup: seq<Member>, c: nat, now: nat): Verdict {
    var s := |sup|;
    if s < MIN_SUPPORT then Deferred(Insufficient)
    else if global && Workspaces(sup) < 2 && s < 5 then Deferred(NotGlobal)
    else if c > s then Rejected
    else if c * 2 >= s then Deferred(Contested)
    else if Confidence(sup, c, now) >= ACCEPT_FLOOR then Accepted
    else Deferred(Weak)
  }

  function Rung(v: Verdict): nat { match v case Accepted => 2 case Deferred(_) => 1 case Rejected => 0 }

  /** Adding contradiction to a fixed support can only move the verdict down the ladder. */
  lemma VerdictOnlyFalls(global: bool, sup: seq<Member>, c: nat, d: nat, now: nat)
    requires c <= d
    ensures Rung(Judge(global, sup, d, now)) <= Rung(Judge(global, sup, c, now))
  {
    ConfidenceFalls(sup, c, d, now);
  }

  // ── What the detectors may rely on ─────────────────────────────────────

  function FirstHundred<T>(s: seq<T>): seq<T> { if |s| <= MAX_EVIDENCE then s else s[..MAX_EVIDENCE] }

  /** A pattern that passed a detector's gates is accepted or deferred as weak, exactly when it has at
      most a hundred supporting ids or fewer than fifty contradicting ones: both sides are cut at a
      hundred before they are judged. */
  lemma DetectorsAgreeWithJudge(global: bool, sup: seq<Member>, con: seq<Member>, now: nat)
    requires |sup| >= if global then 5 else MIN_SUPPORT
    requires !(|con| > |sup|) && !(|con| * 2 >= |sup|)
    ensures Judge(global, FirstHundred(sup), |FirstHundred(con)|, now) in {Accepted, Deferred(Weak)}
            <==> |sup| <= MAX_EVIDENCE || |con| < 50
  {}

  /** The failing side of that equivalence is inhabited. */
  lemma LargeContestedPattern(sup: seq<Member>, con: seq<Member>, now: nat)
    requires |sup| == 300 && |con| == 120
    ensures !(|con| * 2 >= |sup|) && Judge(false, FirstHundred(sup), |FirstHundred(con)|, now) == Deferred(Contested)
  {}

  // ── Mined patterns always clear the floors ─────────────────────────────

  predicate In(m: Member, sids: set<string>) { m.session.Some? && m.session.value in sids }

  function CountIn(ms: seq<Member>, sids: set<string>): nat {
    if ms == [] then 0 else CountIn(ms[..|ms| - 1], sids) + if In(ms[|ms| - 1], sids) then 1 else 0
  }

  function SessionsOf(ms: seq<Member>): set<string> { set m <- ms | m.session.Some? :: m.session.value }

  lemma {:induction false} CountSplits(ms: seq<Member>, a: set<string>, x: string)
    requires x !in a
    ensures CountIn(ms, a + {x}) == CountIn(ms, a) + CountIn(ms, {x})
  {
    if ms != [] { CountSplits(ms[..|ms| - 1], a, x); }
  }

  lemma {:induction false} CountAll(ms: seq<Member>, sids: set<string>)
    requires forall m | m in ms :: In(m, sids)
    ensures CountIn(ms, sids) == |ms|
  {
    if ms != [] {
      assert ms[|ms| - 1] in ms;
      CountAll(ms[..|ms| - 1], sids);
    }
  }

  lemma {:induction false} CountBounded(ms: seq<Member>, sids: set<string>, n: nat)
    requires forall x | x in sids :: CountIn(ms, {x}) <= n
    ensures CountIn(ms, sids) <= n * |sids|
    decreases |sids|
  {
    if sids == {} {
      CountNone(ms);
    } else {
      var x :| x in sids;
      var rest := sids - {x};
      CountBounded(ms, rest, n);
      CountSplits(ms, rest, x);
      assert rest + {x} == sids;
      OneMore(n, |rest|);
    }
  }

  lemma OneMore(n: nat, k: nat)
    ensures n * (k + 1) == n * k + n
  {}

  lemma {:induction false} CountNone(ms: seq<Member>)
    ensures CountIn(ms, {}) == 0
  {
    if ms != [] { CountNone(ms[..|ms| - 1]); }
  }

  lemma {:induction false} CountPrefix(ms: seq<Member>, k: nat, sids: set<string>)
    requires k <= |ms|
    ensures CountIn(ms[..k], sids) <= CountIn(ms, sids)
    decreases |ms|
  {
    if k < |ms| {
      assert ms[..|ms| - 1][..k] == ms[..k];
      CountPrefix(ms[..|ms| - 1], k, sids);
    } else {
      assert ms[..k] == ms;
    }
  }

  lemma {:induction false} WeightBound(ms: seq<Member>)
    requires forall m | m in ms :: m.group != Ignored
    ensures TotalWeight(ms) >= 0.3 * |ms| as real
  {
    if ms != [] {
      assert ms[|ms| - 1] in ms;
      WeightBound(ms[..|ms| - 1]);
    }
  }

  /** The evidence of an uncontradicted mined pattern: linked events of eligible kinds, at most
      `MAX_LEN` from each session. */
  ghost predicate MinedEvidence(sup: seq<Member>) {
    && (forall m | m in sup :: m.session.Some? && m.group != Ignored)
    && (forall x :: CountIn(sup, {x}) <= MAX_LEN)
  }

  /** Cutting the ids at a hundred leaves enough sessions. */
  lemma SessionsSurviveTheCut(sup: seq<Member>)
    requires MinedEvidence(sup) && |SessionsOf(sup)| >= MIN_SESSIONS
    ensures |SessionsOf(FirstHundred(sup))| >= MIN_SESSIONS
  {
    if |sup| > MAX_EVIDENCE {
      var cut := sup[..MAX_EVIDENCE];
      var sids := SessionsOf(cut);
      forall m | m in cut ensures In(m, sids) { assert m in sup; }
      CountAll(cut, sids);
      forall x | x in sids ensures CountIn(cut, {x}) <= MAX_LEN { CountPrefix(sup, MAX_EVIDENCE, {x}); }
      CountBounded(cut, sids, MAX_LEN);
    }
  }

  lemma ShareAtLeast(w: real, k: real, s: real)
    requires s > 0.0 && w >= k * s
    ensures w / s >= k
  {
    RatiosCompare(k, 1.0, w, s);
  }

  lemma EvidenceScores(ms: seq<Member>, now: nat)
    requires |ms| >= 5 && Diversity(ms) >= 3 && forall m | m in ms :: m.group != Ignored
    ensures Base(ms, 0, now) >= 0.76
  {
    var s := |ms| as real;
    WeightBound(ms);
    ShareAtLeast(TotalWeight(ms), 0.3, s);
    ShareAtLeast(Recent(ms, now) as real, 0.0, s);
    FullConsistency(|ms|);
  }

  lemma FullConsistency(s: nat)
    requires s > 0
    ensures Consistency(s, 0) == 1.0
  {
    SelfRatio(s as real);
    assert s as real - 0 as real == s as real && s as real + 0 as real == s as real;
  }

  lemma SelfRatio(x: real)
    requires x > 0.0
    ensures x / x == 1.0
  {}

  /** Whatever its age, an uncontradicted mined pattern scores at least 0.76, above the floors of 0.60 and 0.55. */
  lemma MinedPatternsClearFloors(global: bool, sup: seq<Member>, now: nat)
    requires MinedEvidence(sup) && |SessionsOf(sup)| >= MIN_SESSIONS && |sup| >= MIN_LEN * MIN_SESSIONS
    ensures Confidence(FirstHundred(sup), 0, now) >= 76
    ensures Judge(global, FirstHundred(sup), 0, now) == Accepted
  {
    var ms := FirstHundred(sup);
    SessionsSurviveTheCut(sup);
    forall m | m in ms ensures m.group != Ignored { assert m in sup; }
    assert Diversity(ms) >= 3 by { assert SessionsOf(ms) == set m <- ms | m.session.Some? :: m.session.value; }
    EvidenceScores(ms, now);
    var x := Clamped(Base(ms, 0, now));
    assert x * 100.0 + 0.5 >= 76.0;
  }
}
