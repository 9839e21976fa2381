/** The candidate and inference tables as the learning operations rewrite them. */
module LearningStore {
  import opened Common
  import opened Records
  import opened Evaluation
  import opened Learning

  class LearningStore {
    var candidates: map<string, Candidate>
    var records: map<string, Inference>
    var events: map<int, Row>

    constructor ()
      ensures State() == Ledger(map[], map[], map[]) && Sound(State())
    {
      candidates, records, events := map[], map[], map[];
    }

    function State(): Ledger reads this { Ledger(candidates, records, events) }

    /** Resolve the cited ids against history: those that exist in scope, on the side that cites them. */
    method VoiceEvidence(c: Candidate) returns (supporting: seq<int>, contradicting: seq<int>)
      ensures supporting == VoicedFor(events, c) && contradicting == VoicedAgainst(events, c)
    {
      var cited := Cited(c);
      ghost var yes, no := Supports(c), Opposes(c);
      supporting, contradicting := [], [];
      for i := 0 to |cited|
        invariant supporting == Kept(events, c.slot, cited[..i], yes)
        invariant contradicting == Kept(events, c.slot, cited[..i], no)
      {
        var id := cited[i];
        assert cited[..i + 1][..i] == cited[..i];
        if id !in events || !InScope(c.slot, events[id]) { continue; }
        if id in c.supporting { supporting := supporting + [id]; } else { contradicting := contradicting + [id]; }
      }
      assert cited[..|cited|] == cited;
      supporting, contradicting := SortIds(supporting), SortIds(contradicting);
    }

    /** The stored events behind the evidence, in its order. */
    method EvidenceMembers(ids: seq<int>) returns (members: seq<Member>)
      ensures members == MembersOf(events, ids)
    {
      members := [];
      for i := 0 to |ids|
        invariant members == MembersOf(events, ids[..i])
      {
        assert ids[..i + 1][..i] == ids[..i];
        var id := ids[i];
        if id in events {
          var e := events[id];
          members := members + [Member(id, e.group, e.polarity, e.createdAt, e.session, e.workspace)];
        }
      }
      assert ids[..|ids|] == ids;
    }

    /** The active inference of a slot, if there is one. */
    method ActiveInference(slot: Slot) returns (found: Option<string>)
      ensures found.Some? ==> ActiveIn(State(), slot, found.value)
      ensures found.None? ==> !Occupied(State(), slot)
    {
      found := None;
      var left := records.Keys;
      while left != {} && found.None?
        invariant left <= records.Keys
        invariant found.Some? ==> ActiveIn(State(), slot, found.value)
        invariant found.None? ==> forall id | ActiveIn(State(), slot, id) :: id in left
      {
        var id :| id in left;
        left := left - {id};
        if records[id].slot == slot && records[id].authority == AiInferred
            && records[id].status == Active { found := Some(id); }
      }
    }

    method UpsertCandidate(
        id: string, slot: Slot, proposition: string, sup: seq<int>, con: seq<int>, confidence: int, now: nat)
      modifies this`candidates
      ensures State() == Propose(old(State()), id, slot, proposition, sup, con, confidence, now)
      ensures Sound(old(State())) ==> Sound(State())
    {
      if Sound(State()) { StepKeeps(State(), Detect(id, slot, proposition, sup, con, confidence, now)); }
      var expires := now + CANDIDATE_TTL;
      if id in candidates && candidates[id].stage == Stage.Accepted {
        candidates := candidates[id := candidates[id].(supporting := sup, contradicting := con,
                                                       confidence := confidence, expiresAt := expires)];
        return;
      }
      if id !in candidates || candidates[id].stage in {Proposed, Evaluating, Stage.Deferred} {
        candidates := candidates[id := Candidate(slot, proposition, sup, con, confidence, Proposed, expires, None)];
      }
    }

    /** Write the inference a candidate has earned, superseding the one in its slot; nothing when it is already there,
        and no record when it would cite too much. */
    method PersistInference(
        c: Candidate, supporting: seq<int>, confidence: int, newId: string, now: nat) returns (id: Option<string>)
      requires OnePerSlot(State())
      requires supporting == VoicedFor(events, c) && confidence == Score(State(), c, now)
      modifies this`records
      ensures Unchanged(old(State()), c) ==> id == c.inference && records == old(records)
      ensures !Unchanged(old(State()), c) && |supporting| > MAX_CITATIONS ==> id.None? && records == old(records)
      ensures !Unchanged(old(State()), c) && |supporting| <= MAX_CITATIONS ==>
          id == Some(newId) && records == Persisted(old(State()), c, newId, now)
    {
      var row := Inference(c.slot, c.proposition, AiInferred, Active, supporting, confidence, None,
                           now + INFERENCE_TTL);
      var clash := ActiveInference(c.slot);
      if clash.Some? {
        var prev := clash.value;
        assert Inferred(State(), prev);
        assert Occupied(State(), c.slot) && Inferred(State(), Occupant(State(), c.slot));
        if c.inference == Some(prev) && c.supporting == supporting { return Some(prev); }
        if |supporting| > MAX_CITATIONS { return None; }
        records := records[prev := records[prev].(status := RecordStatus.Superseded)]
                          [newId := row.(supersedes := Some(prev))];
        return Some(newId);
      }
      if |supporting| > MAX_CITATIONS { return None; }
      records := records[newId := row];
      return Some(newId);
    }

    method RejectRecord(id: Option<string>)
      modifies this`records
      ensures records == Retired(old(records), id)
    {
      if id.Some? && id.value in records && records[id.value].status == Active {
        records := records[id.value := records[id.value].(status := RecordStatus.Rejected)];
      }
    }

    /** Weigh the evidence that still stands. */
    method JudgeCandidate(
        c: Candidate, now: nat)
      returns (supporting: seq<int>, contradicting: seq<int>, confidence: int, verdict: Verdict)
      ensures supporting == VoicedFor(events, c) && contradicting == VoicedAgainst(events, c)
      ensures confidence == Score(State(), c, now) && verdict == VerdictFor(State(), c, now)
    {
      supporting, contradicting := VoiceEvidence(c);
      var members := EvidenceMembers(supporting);
      confidence := Confidence(members, |contradicting|, now);
      verdict := Judge(c.slot.scope == Global, members, |contradicting|, now);
    }

    /** The verdict is in favour: write the inference, then mark the candidate. */
    method AcceptCandidate(
        id: string, c: Candidate, supporting: seq<int>, contradicting: seq<int>, confidence: int, newId: string,
        now: nat) returns (ok: bool)
      requires OnePerSlot(State()) && Evaluable(State(), id) && candidates[id] == c
          && VerdictFor(State(), c, now) == Verdict.Accepted
      requires supporting == VoicedFor(events, c) && contradicting == VoicedAgainst(events, c)
          && confidence == Score(State(), c, now)
      modifies this`candidates, this`records
      ensures State() == Evaluate(old(State()), id, newId, now)
      ensures ok == !Overflows(old(State()), id, now)
    {
      ghost var was := State();
      var kept := PersistInference(c, supporting, confidence, newId, now);
      if kept.None? {
        candidates := candidates[id := c.(stage := Evaluating)];
        assert Overflows(was, id, now);
        return false;
      }
      var row := c.(supporting := supporting, contradicting := contradicting, confidence := confidence,
                    stage := Stage.Accepted, inference := kept);
      assert row == Judged(was, c, Stage.Accepted, now).(inference := kept);
      candidates := candidates[id := row];
      return true;
    }

    /** The verdict is against: an accepted candidate's inference is retired with it. */
    method LapseCandidate(
        id: string, c: Candidate, supporting: seq<int>, contradicting: seq<int>, confidence: int, stage: Stage)
      requires id in candidates && candidates[id] == c
      modifies this`candidates, this`records
      ensures candidates == old(candidates)[id := c.(supporting := supporting, contradicting := contradicting,
                                                     confidence := confidence, stage := stage)]
      ensures records == if c.stage == Stage.Accepted then Retired(old(records), c.inference) else old(records)
    {
      if c.stage == Stage.Accepted { RejectRecord(c.inference); }
      candidates := candidates[id := c.(supporting := supporting, contradicting := contradicting,
                                        confidence := confidence, stage := stage)];
    }

    /** Re-derive, judge and move one candidate. It fails for a finished candidate and for one that cites too much. */
    method EvaluateCandidate(id: string, newId: string, now: nat) returns (ok: bool)
      requires OnePerSlot(State()) && newId !in records
      modifies this`candidates, this`records
      ensures State() == Evaluate(old(State()), id, newId, now)
      ensures ok == (Evaluable(old(State()), id) && !Overflows(old(State()), id, now))
      ensures OnePerSlot(State()) && (ok && Sound(old(State())) ==> Sound(State()))
    {
      StepKeepsOnePerSlot(State(), Assess(id, newId, now));
      if Sound(State()) && !Overflows(State(), id, now) { AssessKeeps(State(), id, newId, now); }
      if id !in candidates || candidates[id].stage.Rejected? || candidates[id].stage.Superseded?
          || candidates[id].stage.Expired? { return false; }
      var c := candidates[id];
      var supporting, contradicting, confidence, verdict := JudgeCandidate(c, now);
      match verdict {
        case Accepted => ok := AcceptCandidate(id, c, supporting, contradicting, confidence, newId, now);
        case Deferred(_) => LapseCandidate(id, c, supporting, contradicting, confidence, Stage.Deferred); ok := true;
        case Rejected => LapseCandidate(id, c, supporting, contradicting, confidence, Stage.Rejected); ok := true;
      }
    }

    method ConfirmCandidate(id: string, userConfirmed: bool, newId: string) returns (ok: bool)
      requires newId !in records
      modifies this`candidates, this`records
      ensures State() == Confirm(old(State()), id, userConfirmed, newId)
      ensures Sound(old(State())) ==> Sound(State())
      ensures ok == (userConfirmed && Confirmable(old(State()), id))
    {
      if Sound(State()) { ConfirmKeeps(State(), id, userConfirmed, newId); }
      if !userConfirmed || id !in candidates { return false; }
      var c := candidates[id];
      if c.stage != Stage.Accepted || c.inference.None? || c.inference.value !in records { return false; }
      var prior := c.inference.value;
      if records[prior].status != Active { return false; }
      var confirmed := records[prior].(authority := UserConfirmed, confidence := 90, supersedes := Some(prior));
      records := records[prior := records[prior].(status := RecordStatus.Superseded)][newId := confirmed];
      candidates := candidates[id := c.(stage := Stage.Superseded, inference := Some(newId))];
      return true;
    }

    method RejectCandidate(id: string) returns (ok: bool)
      modifies this`candidates, this`records
      ensures State() == Refuse(old(State()), id) && ok == (id in old(candidates))
      ensures Sound(old(State())) ==> Sound(State())
    {
      if Sound(State()) { StepKeeps(State(), UserRejects(id)); }
      if id !in candidates { return false; }
      RejectRecord(candidates[id].inference);
      candidates := candidates[id := candidates[id].(stage := Stage.Rejected)];
      return true;
    }

    method ExpireSweep(now: nat)
      modifies this`candidates
      ensures State() == ExpireCandidates(old(State()), now)
      ensures Sound(old(State())) ==> Sound(State())
    {
      if Sound(State()) { SweepKeeps(State(), now); }
      candidates := map id | id in candidates ::
        if Lapsed(candidates[id], now) then candidates[id].(stage := Stage.Expired) else candidates[id];
    }
  }
}
