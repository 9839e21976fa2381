/** The evolution detector's gates: recurring failures of a skill's current version. */
module Evolution {
  import opened Common
  import opened Miner
  import opened Evaluation

  const MIN_FAILURES := 3
  const HEALTH_MIN_USES := 3

  /** An execution linked to the skill; `namesPeer` when its report mentions another active skill. */
  datatype Linked = Linked(id: int, polarity: Polarity, createdAt: nat, namesPeer: bool)

  datatype Health = Health(successes: nat, failures: nat)

  predicate Assessable(h: Health) { h.successes + h.failures >= HEALTH_MIN_USES }

  /** Two uses in five failed, or more. */
  predicate Degraded(h: Health) { Assessable(h) && 5 * h.failures >= 2 * (h.successes + h.failures) }

  datatype Gate = InsufficientEvidence | Contradicted | Contested | HealthyVeto | NoSignal | Passed

  /** Evidence about this skill's current version: later than the version, and about no other skill. */
  predicate InWindow(e: Linked, since: nat) { e.createdAt > since && !e.namesPeer }

  function Window(linked: seq<Linked>, since: nat, p: Polarity): seq<Linked> {
    if linked == [] then []
    else
      var last := linked[|linked| - 1];
      Window(linked[..|linked| - 1], since, p) + if InWindow(last, since) && last.polarity == p then [last] else []
  }

  /** The window holds what came after the version, speaks of no other skill, and went the given way. */
  lemma {:induction false} WindowHolds(linked: seq<Linked>, since: nat, p: Polarity, e: Linked)
    ensures multiset(Window(linked, since, p))[e]
            == if e.createdAt > since && !e.namesPeer && e.polarity == p then multiset(linked)[e] else 0
  {
    if linked != [] {
      assert linked == linked[..|linked| - 1] + [linked[|linked| - 1]];
      WindowHolds(linked[..|linked| - 1], since, p, e);
    }
  }

  /** The gates in order. A pass means three failures in the window, fewer than half as many successes,
      a shared signal, and counters that do not report the skill healthy. */
  method RunGates(
      linked: seq<Linked>, since: nat, health: Health, recurring: bool)
    returns (g: Gate, sup: seq<Linked>, con: seq<Linked>)
    ensures sup == Window(linked, since, Failure) && con == Window(linked, since, Success)
    ensures var uses := health.successes + health.failures; var healthy := uses >= 3 && 5 * health.failures < 2 * uses;
            && (g == Passed <==> |sup| >= 3 && 2 * |con| < |sup| && !healthy && recurring)
            && (g == InsufficientEvidence <==> |sup| < 3)
            && (g == Contradicted <==> |sup| >= 3 && |con| > |sup|)
            && (g == Gate.Contested <==> |sup| >= 3 && |con| <= |sup| <= 2 * |con|)
            && (g == HealthyVeto <==> |sup| >= 3 && 2 * |con| < |sup| && healthy)
            && (g == NoSignal <==> |sup| >= 3 && 2 * |con| < |sup| && !healthy && !recurring)
  {
    sup, con := [], [];
    for n := 0 to |linked|
      invariant sup == Window(linked[..n], since, Failure) && con == Window(linked[..n], since, Success)
    {
      assert linked[..n + 1][..n] == linked[..n];
      var e := linked[n];
      if e.createdAt <= since || e.namesPeer {
        continue;
      }
      match e.polarity
      case Failure => sup := sup + [e];
      case Success => con := con + [e];
      case Neutral =>
    }
    assert linked[..|linked|] == linked;
    if |sup| < MIN_FAILURES {
      g := InsufficientEvidence;
    } else if |con| > |sup| {
      g := Contradicted;
    } else if |con| * 2 >= |sup| {
      g := Gate.Contested;
    } else if Assessable(health) && !Degraded(health) {
      g := HealthyVeto;
    } else if !recurring {
      g := NoSignal;
    } else {
      g := Passed;
    }
  }

  /** What passes the gates is judged accepted or weak, exactly when it has at most a hundred failures
      or fewer than fifty successes in the window. */
  lemma PassedIsJudgedAlike(linked: seq<Linked>, since: nat, sup: seq<Member>, con: seq<Member>, now: nat)
    requires |sup| == |Window(linked, since, Failure)| && |con| == |Window(linked, since, Success)|
    requires |sup| >= MIN_FAILURES && 2 * |con| < |sup|
    ensures Judge(false, FirstHundred(sup), |FirstHundred(con)|, now) in {Accepted, Deferred(Weak)}
            <==> |sup| <= MAX_EVIDENCE || |con| < 50
  {
    DetectorsAgreeWithJudge(false, sup, con, now);
  }

  /** A new version starts with a clean record: failures up to its activation never count. */
  lemma {:induction false} OldFailuresDoNotHaunt(linked: seq<Linked>, since: nat)
    requires forall e | e in linked :: e.createdAt <= since
    ensures Window(linked, since, Failure) == []
  {
    if linked != [] {
      assert linked[|linked| - 1] in linked;
      OldFailuresDoNotHaunt(linked[..|linked| - 1], since);
    }
  }
}
