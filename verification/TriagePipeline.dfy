/**
 The per-envelope pipeline of triage (Triage.process_one in
 tradingagents/sensing/triage.py) as a state machine whose calls interleave at every
 await, those inside the stage-1 check included, and as the single step it is when
 nothing interleaves.
 */
module TriagePipeline {
  import opened Dedupe
  import opened Outcomes

  datatype Score = Llm | Cache | Deferred

  datatype Status = Triaged | Duplicate

  /** An events row; `env` records which envelope it was written for. */
  datatype Event = Event(env: Envelope, status: Status, score: Option<Score>, dedupedOf: Option<EventId>, hasRaw: bool)

  /** A row that went through scoring: neither a duplicate nor deferred. */
  predicate Scored(e: Event) {
    e.status == Triaged && e.dedupedOf == None && (e.score == Some(Llm) || e.score == Some(Cache))
  }

  /** The tables, and the raw files still in staging. */
  datatype Db = Db(events: map<EventId, Event>, table: Fingerprints, embedded: set<EventId>, staging: set<string>)

  /** Where a call is, between two awaits. */
  datatype Pc =
    | Start(env: Envelope)
    | ExtChecked(env: Envelope)
    | PassedStage1(env: Envelope)
    | PassedStage2(env: Envelope)
    | Inserted(env: Envelope, id: EventId)
    | ExtRecorded(env: Envelope, id: EventId)
    | ShaRecorded(env: Envelope, id: EventId)

  datatype Sys = Sys(db: Db, calls: map<nat, Pc>)

  /** The raw file is moved (or, with `consume` false, copied); the row keeps it only if it was still there. */
  function WriteEvent(db: Db, id: EventId, env: Envelope, status: Status, score: Option<Score>,
                      dedupedOf: Option<EventId>, consume: bool): Db {
    db.(events := db.events[id := Event(env, status, score, dedupedOf, env.rawPath in db.staging)],
        staging := if consume then db.staging - {env.rawPath} else db.staging)
  }

  /** The embedding search may return any embedded row that is not a duplicate. */
  ghost predicate Stage2MayReturn(db: Db, hit: Option<EventId>) {
    hit.Some? ==> hit.value in db.embedded && hit.value in db.events && db.events[hit.value].status != Duplicate
  }

  /**
   One atomic piece of one call. `Deliver` starts a call, `Crash` drops it; `live` is
   what Redis says of the fingerprint at that moment; the score is the scorer's answer.
   */
  datatype Step =
    | Deliver(call: nat, env: Envelope)
    | CheckExt(call: nat, live: bool, newId: EventId)
    | CheckSha(call: nat, live: bool, newId: EventId)
    | Stage2(call: nat, hit: Option<EventId>, newId: EventId)
    | ScoreAndInsert(call: nat, score: Score, newId: EventId)
    | RecordExt(call: nat)
    | RecordSha(call: nat)
    | Embed(call: nat)
    | Crash(call: nat)

  ghost predicate Enabled(s: Sys, step: Step) {
    match step
    case Deliver(call, _) => call !in s.calls
    case CheckExt(call, _, newId) => call in s.calls && s.calls[call].Start? && newId !in s.db.events
    case CheckSha(call, _, newId) => call in s.calls && s.calls[call].ExtChecked? && newId !in s.db.events
    case Stage2(call, hit, newId) =>
      call in s.calls && s.calls[call].PassedStage1? && newId !in s.db.events && Stage2MayReturn(s.db, hit)
    case ScoreAndInsert(call, _, newId) => call in s.calls && s.calls[call].PassedStage2? && newId !in s.db.events
    case RecordExt(call) => call in s.calls && s.calls[call].Inserted?
    case RecordSha(call) => call in s.calls && s.calls[call].ExtRecorded?
    case Embed(call) => call in s.calls && s.calls[call].ShaRecorded?
    case Crash(call) => call in s.calls
  }

  /** The hot lookup of the external id. */
  function HotExt(table: Fingerprints, live: bool, env: Envelope): Option<EventId> {
    if env.externalId != "" && live then Lookup(table, env.externalId, ExternalId) else None
  }

  /** The hot lookup of the text hash, and then SQLite. */
  function ShaThenDurable(table: Fingerprints, live: bool, env: Envelope): Option<EventId> {
    if live && Lookup(table, env.sha, Sha256).Some? then Lookup(table, env.sha, Sha256) else DurableAnswer(table, env)
  }

  /** A found original ends the call with a duplicate row; otherwise it goes on at `next`. */
  function Checked(s: Sys, call: nat, env: Envelope, newId: EventId, original: Option<EventId>, next: Pc): Sys {
    if original.Some? then Sys(WriteEvent(s.db, newId, env, Duplicate, None, original, true), s.calls - {call})
    else s.(calls := s.calls[call := next])
  }

  function Apply(s: Sys, step: Step): Sys
    requires Enabled(s, step)
  {
    match step
    case Deliver(call, env) => s.(calls := s.calls[call := Start(env)])
    case Crash(call) => s.(calls := s.calls - {call})
    case CheckExt(call, live, newId) =>
      var env := s.calls[call].env;
      Checked(s, call, env, newId, HotExt(s.db.table, live, env), ExtChecked(env))
    case CheckSha(call, live, newId) =>
      var env := s.calls[call].env;
      Checked(s, call, env, newId, ShaThenDurable(s.db.table, live, env), PassedStage1(env))
    case Stage2(call, hit, newId) =>
      var env := s.calls[call].env;
      if hit.Some? then
        Sys(WriteEvent(s.db, newId, env, Duplicate, None, hit, true), s.calls - {call})
      else s.(calls := s.calls[call := PassedStage2(env)])
    case ScoreAndInsert(call, score, newId) =>
      var env := s.calls[call].env;
      if score == Deferred then
        Sys(WriteEvent(s.db, newId, env, Triaged, Some(Deferred), None, false), s.calls - {call})
      else
        Sys(WriteEvent(s.db, newId, env, Triaged, Some(score), None, true), s.calls[call := Inserted(env, newId)])
    case RecordExt(call) =>
      var Inserted(env, id) := s.calls[call];
      var table := if env.externalId != "" then InsertIgnore(s.db.table, Key(env.externalId, ExternalId), id)
                   else s.db.table;
      Sys(s.db.(table := table), s.calls[call := ExtRecorded(env, id)])
    case RecordSha(call) =>
      var ExtRecorded(env, id) := s.calls[call];
      Sys(s.db.(table := InsertIgnore(s.db.table, Key(env.sha, Sha256), id)), s.calls[call := ShaRecorded(env, id)])
    case Embed(call) =>
      Sys(s.db.(embedded := s.db.embedded + {s.calls[call].id}), s.calls - {call})
  }

  ghost predicate Runs(s: Sys, steps: seq<Step>, t: Sys)
    decreases steps
  {
    if steps == [] then t == s
    else Enabled(s, steps[0]) && Runs(Apply(s, steps[0]), steps[1..], t)
  }

  ghost predicate IsScored(db: Db, id: EventId) {
    id in db.events && Scored(db.events[id])
  }

  /** Everything a duplicate link can point at is a scored row. */
  ghost predicate Linked(s: Sys) {
    && (forall key | key in s.db.table :: IsScored(s.db, s.db.table[key]))
    && (forall id | id in s.db.embedded :: IsScored(s.db, id))
    && (forall id | id in s.db.events && s.db.events[id].dedupedOf.Some? ::
          IsScored(s.db, s.db.events[id].dedupedOf.value))
    && (forall c | c in s.calls && (s.calls[c].Inserted? || s.calls[c].ExtRecorded? || s.calls[c].ShaRecorded?) ::
          IsScored(s.db, s.calls[c].id))
  }

  /** A new row is unlinked, or linked to a scored row; scored rows stay. */
  lemma CheckKeepsLinked(s: Sys, step: Step)
    requires Enabled(s, step) && Linked(s) && (step.CheckExt? || step.CheckSha?)
    ensures Linked(Apply(s, step))
  {
  }

  lemma Stage2KeepsLinked(s: Sys, step: Step)
    requires Enabled(s, step) && Linked(s) && step.Stage2?
    ensures Linked(Apply(s, step))
  {
    if step.hit.Some? {
      assert IsScored(s.db, step.hit.value);
    }
  }

  lemma InsertKeepsLinked(s: Sys, step: Step)
    requires Enabled(s, step) && Linked(s) && step.ScoreAndInsert?
    ensures Linked(Apply(s, step))
  {
  }

  lemma RecordKeepsLinked(s: Sys, step: Step)
    requires Enabled(s, step) && Linked(s) && (step.RecordExt? || step.RecordSha? || step.Embed?)
    ensures Linked(Apply(s, step))
  {
    assert IsScored(s.db, s.calls[step.call].id);
  }

  lemma StepKeepsLinked(s: Sys, step: Step)
    requires Enabled(s, step) && Linked(s)
    ensures Linked(Apply(s, step))
  {
    if step.CheckExt? || step.CheckSha? {
      CheckKeepsLinked(s, step);
    } else if step.Stage2? {
      Stage2KeepsLinked(s, step);
    } else if step.ScoreAndInsert? {
      InsertKeepsLinked(s, step);
    } else if step.RecordExt? || step.RecordSha? || step.Embed? {
      RecordKeepsLinked(s, step);
    }
  }

  /**
   In every interleaving, from tables that satisfy it: a duplicate link names an
   existing scored row, so links have depth one and never name a deferred row.
   */
  lemma {:induction false} LinksHaveDepthOne(s: Sys, steps: seq<Step>, t: Sys)
    requires Linked(s) && Runs(s, steps, t)
    ensures Linked(t)
    ensures forall id | id in t.db.events && t.db.events[id].dedupedOf.Some? ::
              var original := t.db.events[id].dedupedOf.value;
              && original in t.db.events
              && t.db.events[original].dedupedOf == None
              && t.db.events[original].status == Triaged
              && t.db.events[original].score != Some(Deferred)
    decreases steps
  {
    if steps != [] {
      StepKeepsLinked(s, steps[0]);
      LinksHaveDepthOne(Apply(s, steps[0]), steps[1..], t);
    }
  }

  // ----- raw files -----

  /** A row written since s for this raw file, other than a deferred one, whose file is kept for a later call. */
  ghost predicate Took(s: Sys, t: Sys, path: string) {
    exists id :: id in t.db.events && id !in s.db.events && t.db.events[id].env.rawPath == path
                 && t.db.events[id].score != Some(Deferred)
  }

  /** Rows are only added. */
  ghost predicate KeepsRows(s: Sys, t: Sys) {
    forall id | id in s.db.events :: id in t.db.events && t.db.events[id] == s.db.events[id]
  }

  lemma StepTakes(s: Sys, step: Step, path: string)
    requires Enabled(s, step)
    ensures KeepsRows(s, Apply(s, step))
    ensures path in Apply(s, step).db.staging <==> path in s.db.staging && !Took(s, Apply(s, step), path)
    ensures forall id | id in Apply(s, step).db.events && id !in s.db.events ::
              Apply(s, step).db.events[id].hasRaw == (Apply(s, step).db.events[id].env.rawPath in s.db.staging)
  {
    var t := Apply(s, step);
    if path in s.db.staging && path !in t.db.staging {
      var id :| id in t.db.events && id !in s.db.events;
      assert t.db.events[id].env.rawPath == path;
    }
  }

  lemma TookTwice(s: Sys, next: Sys, t: Sys, path: string)
    requires KeepsRows(s, next) && KeepsRows(next, t)
    ensures Took(s, t, path) <==> Took(s, next, path) || Took(next, t, path)
  {
    if Took(s, next, path) {
      var id :| id in next.db.events && id !in s.db.events && next.db.events[id].env.rawPath == path
                && next.db.events[id].score != Some(Deferred);
      assert t.db.events[id] == next.db.events[id];
    }
  }

  /**
   In every interleaving: a raw file leaves staging exactly when a row other than a deferred
   one is written for it, so a payload that was only deferred still has its raw text.
   */
  lemma {:induction false} RawStaysUntilTaken(s: Sys, steps: seq<Step>, t: Sys, path: string)
    requires Runs(s, steps, t)
    ensures KeepsRows(s, t)
    ensures path in t.db.staging <==> path in s.db.staging && !Took(s, t, path)
    decreases steps
  {
    if steps != [] {
      var next := Apply(s, steps[0]);
      StepTakes(s, steps[0], path);
      RawStaysUntilTaken(next, steps[1..], t, path);
      TookTwice(s, next, t, path);
    }
  }

  lemma RunsOne(s: Sys, steps: seq<Step>, t: Sys)
    requires steps != [] && Enabled(s, steps[0])
    requires if |steps| == 1 then t == Apply(s, steps[0]) else Runs(Apply(s, steps[0]), steps[1..], t)
    ensures Runs(s, steps, t)
  {
  }

  lemma {:induction false} RunsAppend(s: Sys, steps: seq<Step>, t: Sys, more: seq<Step>, u: Sys)
    requires Runs(s, steps, t) && Runs(t, more, u)
    ensures Runs(s, steps + more, u)
    decreases steps
  {
    if steps == [] {
      assert steps + more == more;
    } else {
      assert (steps + more)[1..] == steps[1..] + more;
      RunsAppend(Apply(s, steps[0]), steps[1..], t, more, u);
    }
  }

  // ----- process_one as one step -----

  /** The answers a call receives from outside: Redis, the embedding search, the scorer, and a fresh id. */
  datatype Answers = Answers(hints: Hints, hit: Option<EventId>, score: Score, newId: EventId)

  function ProcessOne(db: Db, env: Envelope, a: Answers): Db {
    match CheckAnswer(db.table, a.hints, env)
    case Some(original) => WriteEvent(db, a.newId, env, Duplicate, None, Some(original), true)
    case None =>
      if a.hit.Some? then WriteEvent(db, a.newId, env, Duplicate, None, a.hit, true)
      else if a.score == Deferred then WriteEvent(db, a.newId, env, Triaged, Some(Deferred), None, false)
      else
        var inserted := WriteEvent(db, a.newId, env, Triaged, Some(a.score), None, true);
        inserted.(table := Recorded(db.table, env, a.newId), embedded := db.embedded + {a.newId})
  }

  /** One new row for the envelope, and no other row changed; the row keeps the raw file if that was still in staging. */
  ghost predicate AddsRow(db: Db, t: Db, env: Envelope, id: EventId, status: Status, score: Option<Score>) {
    && id in t.events && (forall other | other != id ::
          (other in t.events <==> other in db.events) && (other in t.events ==> t.events[other] == db.events[other]))
    && t.events[id].env == env && t.events[id].hasRaw == (env.rawPath in db.staging)
    && t.events[id].status == status && t.events[id].score == score
  }

  /**
   process_one on the tables alone. A stored fingerprint, and then an embedding hit, makes a
   duplicate row linked to its owner; a deferred score leaves the raw file and all fingerprints;
   any other score records the fingerprints and the embedding.
   */
  ghost predicate Processes(db: Db, t: Db, env: Envelope, a: Answers) {
    if Stored(db.table, env) || a.hit.Some? then
      && AddsRow(db, t, env, a.newId, Duplicate, None)
      && (if Stored(db.table, env) then t.events[a.newId].dedupedOf in StoredOriginals(db.table, env)
                                        && t.events[a.newId].dedupedOf.Some?
          else t.events[a.newId].dedupedOf == a.hit)
      && t.table == db.table && t.embedded == db.embedded && t.staging == db.staging - {env.rawPath}
    else
      && AddsRow(db, t, env, a.newId, Triaged, Some(a.score)) && t.events[a.newId].dedupedOf == None
      && (if a.score == Deferred then t.table == db.table && t.embedded == db.embedded && t.staging == db.staging
          else && Stored(t.table, env) && OnlyAdds(db.table, t.table, env, a.newId)
               && (env.externalId != "" ==> Key(env.externalId, ExternalId) in t.table) && Key(env.sha, Sha256) in t.table
               && t.embedded == db.embedded + {a.newId} && t.staging == db.staging - {env.rawPath})
  }

  lemma ProcessMeans(db: Db, env: Envelope, a: Answers)
    ensures Processes(db, ProcessOne(db, env, a), env, a)
  {
  }

  ghost predicate Answerable(db: Db, a: Answers) {
    a.newId !in db.events && Stage2MayReturn(db, a.hit)
  }

  datatype Result = Result(id: EventId, status: Status, dedupedOf: Option<EventId>)

  /** The single step is what the atomic pieces of one call add up to when no other call runs between them. */
  lemma WholeCallIsARun(s: Sys, call: nat, env: Envelope, a: Answers)
    requires call !in s.calls && Answerable(s.db, a)
    ensures exists steps :: Runs(s, steps, Sys(ProcessOne(s.db, env, a), s.calls))
  {
    var end := Sys(ProcessOne(s.db, env, a), s.calls);
    var s1, live := Apply(s, Deliver(call, env)), env.externalId in a.hints.ext;
    var ext := CheckExt(call, live, a.newId);
    if HotExt(s.db.table, live, env).Some? {
      assert Apply(s1, ext) == end;
      RunsOne(s1, [ext], end);
      RunsOne(s, [Deliver(call, env), ext], end);
    } else {
      var steps := FromCheckSha(s, Apply(s1, ext), call, env, a);
      Prepend(s1, ext, steps, end);
      Prepend(s, Deliver(call, env), [ext] + steps, end);
    }
  }

  lemma FromCheckSha(s: Sys, s2: Sys, call: nat, env: Envelope, a: Answers) returns (steps: seq<Step>)
    requires call !in s.calls && Answerable(s.db, a) && s2 == s.(calls := s.calls[call := ExtChecked(env)])
    requires HotExt(s.db.table, env.externalId in a.hints.ext, env).None?
    ensures Runs(s2, steps, Sys(ProcessOne(s.db, env, a), s.calls))
  {
    var end := Sys(ProcessOne(s.db, env, a), s.calls);
    var sha := CheckSha(call, env.sha in a.hints.sha, a.newId);
    if CheckAnswer(s.db.table, a.hints, env).Some? {
      assert Apply(s2, sha) == end;
      RunsOne(s2, [sha], end);
      return [sha];
    }
    steps := FromStage2(s, Apply(s2, sha), call, env, a);
    Prepend(s2, sha, steps, end);
    steps := [sha] + steps;
  }

  lemma Prepend(s: Sys, step: Step, steps: seq<Step>, t: Sys)
    requires Enabled(s, step) && Runs(Apply(s, step), steps, t)
    ensures Runs(s, [step] + steps, t)
  {
    assert ([step] + steps)[1..] == steps;
  }

  lemma FromStage2(s: Sys, s2: Sys, call: nat, env: Envelope, a: Answers) returns (steps: seq<Step>)
    requires call !in s.calls && Answerable(s.db, a) && CheckAnswer(s.db.table, a.hints, env).None?
    requires s2 == s.(calls := s.calls[call := PassedStage1(env)])
    ensures steps != [] && Runs(s2, steps, Sys(ProcessOne(s.db, env, a), s.calls))
  {
    var end := Sys(ProcessOne(s.db, env, a), s.calls);
    var second := Stage2(call, a.hit, a.newId);
    var s3 := Apply(s2, second);
    if a.hit.Some? {
      assert s3 == end;
      RunsOne(s2, [second], end);
      return [second];
    }
    var insert := ScoreAndInsert(call, a.score, a.newId);
    var s4 := Apply(s3, insert);
    if a.score == Deferred {
      assert s4 == end;
      RunsOne(s3, [insert], end);
      RunsOne(s2, [second, insert], end);
      return [second, insert];
    }
    var s5 := Apply(s4, RecordExt(call));
    var s6 := Apply(s5, RecordSha(call));
    assert Apply(s6, Embed(call)) == end;
    RunsOne(s6, [Embed(call)], end);
    RunsOne(s5, [RecordSha(call), Embed(call)], end);
    RunsOne(s4, [RecordExt(call), RecordSha(call), Embed(call)], end);
    RunsOne(s3, [insert, RecordExt(call), RecordSha(call), Embed(call)], end);
    steps := [second, insert, RecordExt(call), RecordSha(call), Embed(call)];
    RunsOne(s2, steps, end);
  }

  /** The pipeline object: its tables, and the stage-1 deduper it owns. */
  class Triage {
    var events: map<EventId, Event>
    var embedded: set<EventId>
    var staging: set<string>
    const ds1: DedupeStage1

    ghost function View(): Db
      reads this, ds1
    {
      Db(events, ds1.table, embedded, staging)
    }

    constructor ()
      ensures fresh(ds1) && View() == Db(map[], map[], {}, {})
    {
      events, embedded, staging := map[], {}, {};
      ds1 := new DedupeStage1();
    }

    method InsertEvent(id: EventId, env: Envelope, status: Status, score: Option<Score>,
                       dedupedOf: Option<EventId>, consume: bool)
      modifies this
      ensures View() == WriteEvent(old(View()), id, env, status, score, dedupedOf, consume)
    {
      events := events[id := Event(env, status, score, dedupedOf, env.rawPath in staging)];
      if consume {
        staging := staging - {env.rawPath};
      }
    }

    /** The call run without interleaving is the single step, and its result names the row it wrote. */
    method Process(env: Envelope, hit: Option<EventId>, score: Score, newId: EventId) returns (r: Result)
      modifies this, ds1
      ensures View() == ProcessOne(old(View()), env, Answers(old(ds1.hints), hit, score, newId))
      ensures Processes(old(View()), View(), env, Answers(old(ds1.hints), hit, score, newId))
      ensures r.id == newId && newId in events
      ensures r.status == events[newId].status && r.dedupedOf == events[newId].dedupedOf
    {
      ProcessMeans(View(), env, Answers(ds1.hints, hit, score, newId));
      var hit1 := ds1.Check(env);
      if hit1.Some? {
        InsertEvent(newId, env, Duplicate, None, hit1, true);
        return Result(newId, Duplicate, hit1);
      }
      if hit.Some? {
        InsertEvent(newId, env, Duplicate, None, hit, true);
        return Result(newId, Duplicate, hit);
      }
      if score == Deferred {
        InsertEvent(newId, env, Triaged, Some(Deferred), None, false);
        return Result(newId, Triaged, None);
      }
      InsertEvent(newId, env, Triaged, Some(score), None, true);
      ds1.Record(env, newId);
      embedded := embedded + {newId};
      return Result(newId, Triaged, None);
    }
  }

  function PassSteps(call: nat, env: Envelope, newId: EventId): seq<Step> {
    [Deliver(call, env), CheckExt(call, false, newId), CheckSha(call, false, newId), Stage2(call, None, newId)]
  }

  /** Over tables without its fingerprints, a call passes both checks. */
  lemma PassesChecks(s: Sys, call: nat, env: Envelope, newId: EventId)
    requires call !in s.calls && !Stored(s.db.table, env) && newId !in s.db.events
    ensures Runs(s, PassSteps(call, env, newId), s.(calls := s.calls[call := PassedStage2(env)]))
  {
    var end := s.(calls := s.calls[call := PassedStage2(env)]);
    var s1 := Apply(s, Deliver(call, env));
    var s2 := Apply(s1, CheckExt(call, false, newId));
    var s3 := Apply(s2, CheckSha(call, false, newId));
    assert Apply(s3, Stage2(call, None, newId)) == end;
    RunsOne(s3, [Stage2(call, None, newId)], end);
    RunsOne(s2, [CheckSha(call, false, newId), Stage2(call, None, newId)], end);
    RunsOne(s1, [CheckExt(call, false, newId), CheckSha(call, false, newId), Stage2(call, None, newId)], end);
    RunsOne(s, PassSteps(call, env, newId), end);
  }
}
