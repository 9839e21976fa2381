/** The durable store as the program drives it: tables updated in place, row by row. Every method is
    proved against the step functions that the run theorems speak about. */
module ContextStore {
  import opened Common
  import opened History
  import Steps = History
  import opened Records
  import opened Portability

  class ContextStore {
    var sessions: map<string, Session>
    var events: map<int, Event>
    var byKey: map<string, int>
    var nextId: int
    var records: map<string, Record>

    function Tables(): History reads this { History(sessions, events, byKey, nextId) }

    function State(): Store reads this { Store(Tables(), records) }

    constructor ()
      ensures State() == Store(History(map[], map[], map[], 1), map[]) && Valid(Tables())
    {
      sessions, events, byKey, nextId, records := map[], map[], map[], 1, map[];
    }

    /** One event inside the caller's transaction. */
    method RecordEventInTx(e: Event) returns (ok: bool, id: int, duplicate: bool)
      modifies this`sessions, this`events, this`byKey, this`nextId
      ensures ok == RecordInTx(old(Tables()), e).Ok?
      ensures ok ==> RecordInTx(old(Tables()), e) == Ok(Recorded(Tables(), id, duplicate))
      ensures !ok ==> Tables() == old(Tables())
    {
      if e.key.Some? && e.key.value in byKey {
        return true, byKey[e.key.value], true;
      }
      if e.session.Some? && e.session.value !in sessions {
        return false, 0, false;
      }
      id := nextId;
      events := events[id := e];
      nextId := id + 1;
      if e.key.Some? {
        byKey := byKey[e.key.value := id];
      }
      if e.session.Some? {
        var s := sessions[e.session.value];
        sessions := sessions[e.session.value := s.(eventCount := s.eventCount + 1, updatedAt := e.createdAt)];
      }
      return true, id, false;
    }

    method RecordHistory(svc: Services, e: Event) returns (ok: bool, id: int, duplicate: bool)
      requires Valid(Tables())
      modifies this`sessions, this`events, this`byKey, this`nextId
      ensures Valid(Tables()) && Extends(old(Tables()), Tables())
      ensures ok == Steps.RecordHistory(svc, old(Tables()), e).Ok?
      ensures ok ==> Steps.RecordHistory(svc, old(Tables()), e) == Ok(Recorded(Tables(), id, duplicate))
      ensures !ok ==> Tables() == old(Tables())
    {
      StepKeeps(svc, Tables(), Op.Record(e));
      if !svc.inputOk(e) || svc.canon(e.workspace) == "" {
        return false, 0, false;
      }
      ok, id, duplicate := RecordEventInTx(Cleaned(svc, e));
    }

    method ImportEvent(svc: Services, e: Event) returns (ok: bool, id: int, duplicate: bool)
      modifies this`sessions, this`events, this`byKey, this`nextId
      ensures ok == Steps.ImportEvent(svc, old(Tables()), e).Ok?
      ensures ok ==> Steps.ImportEvent(svc, old(Tables()), e) == Ok(Recorded(Tables(), id, duplicate))
      ensures !ok ==> Tables() == old(Tables())
    {
      var ws := svc.canon(e.workspace);
      var kind := svc.trim(e.kind);
      if ws == "" || kind == "" {
        return false, 0, false;
      }
      var sid := None;
      if e.session.Some? && svc.trim(e.session.value) != "" && e.session.value in sessions {
        sid := e.session;
      }
      var row := Cleaned(svc, e).(kind := kind, session := sid);
      row := row.(key := Some(if e.key.Some? then e.key.value
          else SynthesizedKey(svc, Cleaned(svc, e).(kind := kind))));
      if !svc.eventOk(row.(session := None)) {
        return false, 0, false;
      }
      ok, id, duplicate := RecordEventInTx(row);
    }

    method ImportSession(svc: Services, id: string, s: Session) returns (ok: bool, inserted: bool)
      modifies this`sessions
      ensures ok == Steps.ImportSession(svc, old(Tables()), id, s).Ok?
      ensures ok ==> Steps.ImportSession(svc, old(Tables()), id, s) == Ok(Tables())
      ensures ok ==> inserted == (svc.trim(id) !in old(sessions))
      ensures !ok ==> Tables() == old(Tables())
    {
      var sid := svc.trim(id);
      if sid == "" || svc.canon(s.workspace) == "" {
        return false, false;
      }
      inserted := sid !in sessions;
      if inserted {
        sessions := sessions[sid := ImportedSession(svc, s)];
      }
      ok := true;
    }

    method RecountSessions(ids: seq<string>)
      modifies this`sessions
      ensures Tables() == Recount(old(Tables()), ids)
    {
      for i := 0 to |ids|
        invariant Tables() == Recount(old(Tables()), ids[..i])
      {
        assert ids[..i + 1][..i] == ids[..i];
        if ids[i] in sessions {
          var linked := set e | e in events && events[e].session == Some(ids[i]);
          sessions := sessions[ids[i] := sessions[ids[i]].(eventCount := |linked|)];
        }
      }
      assert ids[..|ids|] == ids;
    }

    /** The newest active session of a workspace and task, if there is one. */
    method ActiveSessionFor(svc: Services, ws: string, task: Option<string>) returns (found: Option<string>)
      ensures found.Some? ==> Newest(svc, Tables(), ws, task, found.value)
      ensures found.None? <==> !Resumes(svc, Tables(), ws, task)
    {
      found := None;
      var left := sessions.Keys;
      while left != {}
        invariant left <= sessions.Keys
        invariant found.Some? ==> Serves(svc, Tables(), ws, task, found.value) && found.value !in left
        invariant forall sid | Serves(svc, Tables(), ws, task, sid) && sid !in left ::
                    found.Some? && (sid == found.value || NewerSession(Tables(), found.value, sid))
      {
        var sid :| sid in left;
        left := left - {sid};
        if Serves(svc, Tables(), ws, task, sid) {
          if found.None? {
            found := Some(sid);
          } else if NewerSession(Tables(), sid, found.value) {
            NewerIsTransitive(Tables(), sid, found.value);
            found := Some(sid);
          } else {
            BeforeConnected(sid, found.value);
          }
        }
      }
    }

    /** `id` is the freshly minted one: not in the table. */
    method EnsureActiveSession(
        svc: Services, id: string, ws: string, task: Option<string>, now: nat)
      returns (session: Option<string>, created: bool)
      requires Valid(Tables()) && id !in sessions
      modifies this`sessions
      ensures Valid(Tables()) && Extends(old(Tables()), Tables())
      ensures session.Some? ==> Newest(svc, Tables(), ws, task, session.value)
      ensures session.Some? ==> Steps.EnsureSession(svc, old(Tables()), id, ws, task, now) == Ok(Tables())
      ensures created == (session == Some(id)) && (created <==> Tables() != old(Tables()))
      ensures session.None? <==> !Resumes(svc, old(Tables()), ws, task) && svc.canon(ws) == ""
    {
      StepKeeps(svc, Tables(), Ensure(id, ws, task, now));
      session := ActiveSessionFor(svc, ws, task);
      if session.Some? {
        return session, false;
      }
      if svc.canon(ws) == "" {
        return None, false;
      }
      EnsureResumes(svc, Tables(), id, ws, task, now, id, now);
      sessions := sessions[id := OpenedSession(svc.canon(ws), KeepTrimmed(svc, task), None, now)];
      return Some(id), true;
    }

    method CloseSession(
        svc: Services, id: string, status: SessionStatus, reason: Option<string>, summary: Option<string>, now: nat)
      returns (ok: bool)
      requires Valid(Tables())
      modifies this`sessions
      ensures Valid(Tables()) && Extends(old(Tables()), Tables())
      ensures ok == (status != SessionStatus.Active && id in old(sessions)
          && old(sessions)[id].status == SessionStatus.Active)
      ensures ok ==> Steps.CloseSession(svc, old(Tables()), id, status, reason, summary, now) == Ok(Tables())
      ensures !ok ==> Tables() == old(Tables())
    {
      StepKeeps(svc, Tables(), Close(id, status, reason, summary, now));
      if status == SessionStatus.Active || id !in sessions || sessions[id].status != SessionStatus.Active {
        return false;
      }
      var why := KeepTrimmed(svc, KeepText(svc, reason, MAX_REASON_CHARS));
      var note := KeepTrimmed(svc, KeepText(svc, summary, MAX_SUMMARY_CHARS));
      var snapshot := None;
      if note.Some? {
        snapshot := Some(Built(note.value, status, now, sessions[id].eventCount));
      }
      sessions := sessions[id := sessions[id].(
        status := status, closedAt := Some(now), updatedAt := now, endReason := why, snapshot := snapshot)];
      ok := true;
    }

    /** The import seam for records: normalize, check shape and evidence, upsert keeping the creation time. */
    method ImportRecord(env: Env, id: string, r: Record) returns (ok: bool)
      modifies this`records
      ensures ok == Storable(env, Tables(), r)
      ensures records == if ok then Upserted(env.svc, old(records), id, r) else old(records)
    {
      var n := Normalized(env.svc, r);
      if !env.recordOk(n) {
        return false;
      }
      for i := 0 to |n.evidence|
        invariant forall k | 0 <= k < i ::
          n.evidence[k].Cite? && n.evidence[k].id in events
          && (n.workspace.Some? ==> events[n.evidence[k].id].workspace == n.workspace.value)
      {
        var c := n.evidence[i];
        if c.Garbled? || c.id !in events {
          return false;
        }
        if n.workspace.Some? && events[c.id].workspace != n.workspace.value {
          return false;
        }
      }
      if id in records {
        n := n.(createdAt := records[id].createdAt);
      }
      records := records[id := n];
      ok := true;
    }
  }

  /** What the found session was newer than, a newer one is newer than too. */
  lemma NewerIsTransitive(h: History, a: string, b: string)
    requires a in h.sessions && b in h.sessions
    ensures NewerSession(h, a, b) ==> forall c | c in h.sessions && NewerSession(h, b, c) :: NewerSession(h, a, c)
  {
    forall c | NewerSession(h, a, b) && c in h.sessions && NewerSession(h, b, c) ensures NewerSession(h, a, c) {
      if Before(c, b) && Before(b, a) { BeforeTransitive(c, b, a); }
    }
  }
}
