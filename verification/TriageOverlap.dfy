/**
 Overlapping calls of the triage pipeline: one Triage instance serves every consumer, so
 calls on unrelated texts always interleave. A text hash or an external id is scored twice
 only if, before it was first recorded, a call started on it while another one was at it, or
 a call was dropped that had stored its row; whatever happens to other texts.
 */
module TriageOverlap {
  import opened Dedupe
  import opened Outcomes
  import opened TriagePipeline

  predicate OwnKey(env: Envelope, key: Key) {
    key == Key(env.sha, Sha256) || (env.externalId != "" && key == Key(env.externalId, ExternalId))
  }

  /** The call has stored its row, and not yet all its fingerprints. */
  predicate Recording(pc: Pc) {
    pc.Inserted? || pc.ExtRecorded?
  }

  // ----- what every run keeps -----

  /** A fingerprint is one of its owner's own. */
  ghost predicate Truthful(s: Sys) {
    forall key | key in s.db.table :: s.db.table[key] in s.db.events && OwnKey(s.db.events[s.db.table[key]].env, key)
  }

  /** A recording call's row is its own. */
  ghost predicate RowsOwn(s: Sys) {
    forall c | c in s.calls && (Recording(s.calls[c]) || s.calls[c].ShaRecorded?) ::
      IsScored(s.db, s.calls[c].id) && s.db.events[s.calls[c].id].env == s.calls[c].env
  }

  ghost predicate Told(s: Sys) {
    Linked(s) && Truthful(s) && RowsOwn(s)
  }

  /** Rows never change; only scoring adds a scored one. */
  lemma StepKeepsRows(s: Sys, step: Step)
    requires Enabled(s, step)
    ensures var t := Apply(s, step);
            && (forall id | id in s.db.events :: id in t.db.events && t.db.events[id] == s.db.events[id])
            && (forall id | IsScored(t.db, id) && !(step.ScoreAndInsert? && id == step.newId) :: IsScored(s.db, id))
  {
  }

  /** Only recording changes the fingerprints, and adds at most the call's own. */
  lemma StepKeepsTruthful(s: Sys, step: Step)
    requires Enabled(s, step) && Told(s)
    ensures Truthful(Apply(s, step))
  {
    StepKeepsRows(s, step);
    if step.RecordExt? || step.RecordSha? {
      assert s.db.events[s.calls[step.call].id].env == s.calls[step.call].env;
    }
  }

  lemma StepKeepsRowsOwn(s: Sys, step: Step)
    requires Enabled(s, step) && RowsOwn(s)
    ensures RowsOwn(Apply(s, step))
  {
    StepKeepsRows(s, step);
  }

  lemma StepKeepsTold(s: Sys, step: Step)
    requires Enabled(s, step) && Told(s)
    ensures Told(Apply(s, step))
  {
    StepKeepsLinked(s, step);
    StepKeepsTruthful(s, step);
    StepKeepsRowsOwn(s, step);
  }

  lemma {:induction false} RunKeepsTold(s: Sys, steps: seq<Step>, t: Sys)
    requires Told(s) && Runs(s, steps, t)
    ensures Told(t)
    decreases steps
  {
    if steps != [] {
      StepKeepsTold(s, steps[0]);
      RunKeepsTold(Apply(s, steps[0]), steps[1..], t);
    }
  }

  // ----- what a check finds, in every run -----

  const NOTHING := Sys(Db(map[], map[], {}, {}), map[])

  /** Two envelopes with the same text hash, or the same external id. */
  predicate Shares(e: Envelope, f: Envelope) {
    e.sha == f.sha || (e.externalId != "" && e.externalId == f.externalId)
  }

  /**
   In every run, stage 1 ends a call only by a duplicate row that names a scored row with a
   key in common; and a call that reaches its last lookup passes exactly if none of its keys
   is recorded, whatever Redis says.
   */
  lemma StoppedOnlyByScored(steps: seq<Step>, t: Sys, check: Step)
    requires Runs(NOTHING, steps, t) && Enabled(t, check) && (check.CheckExt? || check.CheckSha?)
    ensures var env, u := t.calls[check.call].env, Apply(t, check);
            && (check.call !in u.calls ==>
                  && u.db.events[check.newId].status == Duplicate && u.db.events[check.newId].dedupedOf.Some?
                  && var original := u.db.events[check.newId].dedupedOf.value;
                     IsScored(t.db, original) && Shares(env, t.db.events[original].env))
            && (check.CheckSha? ==> (check.call in u.calls <==> !Stored(t.db.table, env)))
  {
    RunKeepsTold(NOTHING, steps, t);
  }

  /** A raw file that was in staging is there still, unless a row written since is for it. */
  lemma {:induction false} RawFileStays(s: Sys, steps: seq<Step>, t: Sys, path: string)
    requires path in s.db.staging && Runs(s, steps, t)
    ensures forall id | id in s.db.events :: id in t.db.events && t.db.events[id] == s.db.events[id]
    ensures path in t.db.staging || exists id :: id in t.db.events && id !in s.db.events && t.db.events[id].env.rawPath == path
    decreases steps
  {
    if steps != [] {
      var next := Apply(s, steps[0]);
      StepKeepsRows(s, steps[0]);
      if path in next.db.staging {
        RawFileStays(next, steps[1..], t, path);
      } else {
        assert next.db.events[steps[0].newId].env.rawPath == path;
        RowsStay(next, steps[1..], t);
      }
    }
  }

  lemma {:induction false} RowsStay(s: Sys, steps: seq<Step>, t: Sys)
    requires Runs(s, steps, t)
    ensures forall id | id in s.db.events :: id in t.db.events && t.db.events[id] == s.db.events[id]
    decreases steps
  {
    if steps != [] {
      StepKeepsRows(s, steps[0]);
      RowsStay(Apply(s, steps[0]), steps[1..], t);
    }
  }

  /**
   A deferred payload never swallows itself: after any run that defers it and any run from
   there, however calls interleave, a call on its envelope passes every check of stage 1
   unless some scored row shares a key with it, and its raw file is still in staging unless
   another row has been written for that file.
   */
  lemma DeferredIsRescored(before: seq<Step>, s: Sys, defer: Step, after: seq<Step>, t: Sys, check: Step)
    requires Runs(NOTHING, before, s) && Enabled(s, defer) && defer.ScoreAndInsert? && defer.score == Deferred
    requires Runs(Apply(s, defer), after, t) && Enabled(t, check) && (check.CheckExt? || check.CheckSha?)
    requires t.calls[check.call].env == s.calls[defer.call].env
    ensures var env := s.calls[defer.call].env;
            && defer.newId in t.db.events && t.db.events[defer.newId].env == env && !Scored(t.db.events[defer.newId])
            && (check.call in Apply(t, check).calls || exists id :: IsScored(t.db, id) && Shares(env, t.db.events[id].env))
            && (env.rawPath in s.db.staging ==>
                  || env.rawPath in t.db.staging
                  || exists id :: id in t.db.events && id != defer.newId && t.db.events[id].env.rawPath == env.rawPath)
  {
    var d, env := Apply(s, defer), s.calls[defer.call].env;
    RunsOne(s, [defer], d);
    RunsAppend(NOTHING, before, s, [defer], d);
    RunsAppend(NOTHING, before + [defer], d, after, t);
    RowsStay(d, after, t);
    StoppedOnlyByScored(before + [defer] + after, t, check);
    if env.rawPath in s.db.staging {
      RawFileStays(d, after, t, env.rawPath);
    }
  }

  /** The call has stored its row, and not yet this fingerprint of it. */
  predicate Owes(pc: Pc, key: Key) {
    (pc.Inserted? && OwnKey(pc.env, key)) || (pc.ExtRecorded? && key == Key(pc.env.sha, Sha256))
  }

  // ----- what a run counts for one key -----

  /** The calls in flight on the key. */
  ghost function Flight(s: Sys, key: Key): set<nat> {
    set c | c in s.calls && OwnKey(s.calls[c].env, key)
  }

  /** A call starts on a key in flight that is not recorded yet. */
  ghost predicate Joins(s: Sys, step: Step, key: Key) {
    step.Deliver? && OwnKey(step.env, key) && key !in s.db.table && Flight(s, key) != {}
  }

  /** A call is dropped that still owes the key, which is not recorded yet. */
  ghost predicate Cuts(s: Sys, step: Step, key: Key) {
    step.Crash? && step.call in s.calls && Owes(s.calls[step.call], key) && key !in s.db.table
  }

  ghost function Joined(s: Sys, steps: seq<Step>, key: Key): nat
    decreases steps
  {
    if steps == [] || !Enabled(s, steps[0]) then 0
    else (if Joins(s, steps[0], key) then 1 else 0) + Joined(Apply(s, steps[0]), steps[1..], key)
  }

  ghost function CutOff(s: Sys, steps: seq<Step>, key: Key): nat
    decreases steps
  {
    if steps == [] || !Enabled(s, steps[0]) then 0
    else (if Cuts(s, steps[0], key) then 1 else 0) + CutOff(Apply(s, steps[0]), steps[1..], key)
  }

  // ----- the bound -----

  ghost predicate ScoredOwner(db: Db, id: EventId, key: Key) {
    IsScored(db, id) && OwnKey(db.events[id].env, key)
  }

  ghost function Owners(db: Db, key: Key): set<EventId> {
    set id | id in db.events && ScoredOwner(db, id, key)
  }

  ghost function Passed(s: Sys, key: Key): set<nat> {
    set c | c in s.calls && (s.calls[c].PassedStage1? || s.calls[c].PassedStage2?) && OwnKey(s.calls[c].env, key)
  }

  ghost function Owing(s: Sys, key: Key): set<nat> {
    set c | c in s.calls && Owes(s.calls[c], key)
  }

  /**
   Until the key is recorded, each row scored for it is owed by a call in flight or was cut,
   and every call in flight but one has joined another. From then on only the calls that had
   passed the checks can score it.
   */
  ghost predicate Bounded(s: Sys, key: Key, joined: nat, cut: nat) {
    if key in s.db.table then |Owners(s.db, key)| + |Passed(s, key)| <= 1 + joined + cut
    else |Owners(s.db, key)| <= |Owing(s, key)| + cut && |Flight(s, key)| <= 1 + joined
  }

  lemma SubsetSize<T>(a: set<T>, b: set<T>)
    requires a <= b
    ensures |a| <= |b|
  {
    assert b == a + (b - a);
  }

  /** Whatever is recorded first, the calls that can still score the key were in flight. */
  lemma WhenRecorded(s: Sys, key: Key)
    ensures |Owing(s, key)| + |Passed(s, key)| <= |Flight(s, key)|
  {
    SubsetSize(Owing(s, key) + Passed(s, key), Flight(s, key));
  }

  /** A step of a call on other keys changes nothing that counts for this one. */
  lemma OtherKeyStays(s: Sys, step: Step, key: Key)
    requires Enabled(s, step)
    requires if step.Deliver? then !OwnKey(step.env, key) else !OwnKey(s.calls[step.call].env, key)
    ensures var t := Apply(s, step);
            && Owners(t.db, key) == Owners(s.db, key) && Flight(t, key) == Flight(s, key)
            && Passed(t, key) == Passed(s, key) && Owing(t, key) == Owing(s, key)
            && (key in t.db.table <==> key in s.db.table)
  {
    StepKeepsRows(s, step);
  }

  lemma OneMore<T>(a: set<T>, b: set<T>, x: T)
    requires x !in a && forall y :: y in b <==> y in a || y == x
    ensures |b| == |a| + 1
  {
    assert b == a + {x};
  }

  lemma OneLess<T>(a: set<T>, b: set<T>, x: T)
    requires x in a && forall y :: y in b <==> y in a && y != x
    ensures |b| == |a| - 1
  {
    assert b == a - {x};
  }

  lemma CallStarts(s: Sys, t: Sys, c: nat, key: Key)
    requires c !in s.calls && c in t.calls && t == s.(calls := s.calls[c := t.calls[c]])
    requires t.calls[c].Start? && OwnKey(t.calls[c].env, key)
    ensures |Flight(t, key)| == |Flight(s, key)| + 1 && Passed(t, key) == Passed(s, key) && Owing(t, key) == Owing(s, key)
  {
    OneMore(Flight(s, key), Flight(t, key), c);
  }

  /** The call has scored its row, or deferred it and ended. */
  lemma CallScores(s: Sys, t: Sys, c: nat, key: Key)
    requires c in s.calls && s.calls[c].PassedStage2? && OwnKey(s.calls[c].env, key)
    requires forall d | d != c :: (d in t.calls <==> d in s.calls) && (d in s.calls ==> t.calls[d] == s.calls[d])
    requires c in t.calls ==> t.calls[c].Inserted? && t.calls[c].env == s.calls[c].env
    ensures |Passed(t, key)| == |Passed(s, key)| - 1
    ensures if c in t.calls then |Owing(t, key)| == |Owing(s, key)| + 1 && Flight(t, key) == Flight(s, key)
            else |Flight(t, key)| == |Flight(s, key)| - 1 && Owing(t, key) == Owing(s, key)
  {
    OneLess(Passed(s, key), Passed(t, key), c);
    if c in t.calls {
      OneMore(Owing(s, key), Owing(t, key), c);
    } else {
      OneLess(Flight(s, key), Flight(t, key), c);
    }
  }

  lemma CallEnds(s: Sys, t: Sys, c: nat, key: Key)
    requires c in s.calls && OwnKey(s.calls[c].env, key) && t.calls == s.calls - {c}
    ensures |Flight(t, key)| == |Flight(s, key)| - 1 && |Passed(t, key)| <= |Passed(s, key)|
    ensures |Owing(t, key)| == |Owing(s, key)| - if Owes(s.calls[c], key) then 1 else 0
  {
    OneLess(Flight(s, key), Flight(t, key), c);
    SubsetSize(Passed(t, key), Passed(s, key));
    if Owes(s.calls[c], key) {
      OneLess(Owing(s, key), Owing(t, key), c);
    } else {
      assert Owing(t, key) == Owing(s, key);
    }
  }

  /** Only scoring adds an owner. */
  lemma OwnersGrow(s: Sys, step: Step, key: Key)
    requires Enabled(s, step)
    ensures var t := Apply(s, step);
            |Owners(t.db, key)| == |Owners(s.db, key)|
            + if step.ScoreAndInsert? && step.score != Deferred && OwnKey(s.calls[step.call].env, key) then 1 else 0
  {
    var t := Apply(s, step);
    StepKeepsRows(s, step);
    if step.ScoreAndInsert? && ScoredOwner(t.db, step.newId, key) {
      OneMore(Owners(s.db, key), Owners(t.db, key), step.newId);
    } else {
      assert Owners(t.db, key) == Owners(s.db, key);
    }
  }

  lemma DeliverKeepsBounded(s: Sys, step: Step, key: Key, joined: nat, cut: nat)
    requires Enabled(s, step) && step.Deliver? && OwnKey(step.env, key) && Bounded(s, key, joined, cut)
    ensures Bounded(Apply(s, step), key, joined + if Joins(s, step, key) then 1 else 0, cut)
  {
    CallStarts(s, Apply(s, step), step.call, key);
  }

  /** The call leaves, or stays in flight without a row of its own. */
  lemma CheckKeepsBounded(s: Sys, step: Step, key: Key, joined: nat, cut: nat)
    requires Enabled(s, step) && (step.CheckExt? || step.CheckSha? || step.Stage2?) && OwnKey(s.calls[step.call].env, key)
    requires Bounded(s, key, joined, cut)
    ensures Bounded(Apply(s, step), key, joined, cut)
  {
    var t := Apply(s, step);
    OwnersGrow(s, step, key);
    assert Owing(t, key) == Owing(s, key);
    SubsetSize(Flight(t, key), Flight(s, key));
    if key in s.db.table {
      assert Passed(t, key) <= Passed(s, key);
      SubsetSize(Passed(t, key), Passed(s, key));
    }
  }

  lemma ScoreKeepsBounded(s: Sys, step: Step, key: Key, joined: nat, cut: nat)
    requires Enabled(s, step) && step.ScoreAndInsert? && OwnKey(s.calls[step.call].env, key) && Bounded(s, key, joined, cut)
    ensures Bounded(Apply(s, step), key, joined, cut)
  {
    OwnersGrow(s, step, key);
    CallScores(s, Apply(s, step), step.call, key);
  }

  /** Before the key is recorded, whoever owes it owes it still. */
  lemma RecordKeepsBounded(s: Sys, step: Step, key: Key, joined: nat, cut: nat)
    requires Enabled(s, step) && (step.RecordExt? || step.RecordSha?) && OwnKey(s.calls[step.call].env, key)
    requires Bounded(s, key, joined, cut)
    ensures Bounded(Apply(s, step), key, joined, cut)
  {
    var t := Apply(s, step);
    OwnersGrow(s, step, key);
    assert Passed(t, key) == Passed(s, key) && Flight(t, key) == Flight(s, key);
    if key !in t.db.table {
      assert Owing(t, key) == Owing(s, key);
    } else if key !in s.db.table {
      WhenRecorded(s, key);
    }
  }

  lemma EndKeepsBounded(s: Sys, step: Step, key: Key, joined: nat, cut: nat)
    requires Enabled(s, step) && (step.Embed? || step.Crash?) && OwnKey(s.calls[step.call].env, key) && Bounded(s, key, joined, cut)
    ensures Bounded(Apply(s, step), key, joined, cut + if Cuts(s, step, key) then 1 else 0)
  {
    OwnersGrow(s, step, key);
    CallEnds(s, Apply(s, step), step.call, key);
  }

  lemma StepKeepsBounded(s: Sys, step: Step, key: Key, joined: nat, cut: nat)
    requires Enabled(s, step) && Bounded(s, key, joined, cut)
    ensures Bounded(Apply(s, step), key, joined + (if Joins(s, step, key) then 1 else 0), cut + if Cuts(s, step, key) then 1 else 0)
  {
    if if step.Deliver? then !OwnKey(step.env, key) else !OwnKey(s.calls[step.call].env, key) {
      OtherKeyStays(s, step, key);
    } else if step.Deliver? {
      DeliverKeepsBounded(s, step, key, joined, cut);
    } else if step.CheckExt? || step.CheckSha? || step.Stage2? {
      CheckKeepsBounded(s, step, key, joined, cut);
    } else if step.ScoreAndInsert? {
      ScoreKeepsBounded(s, step, key, joined, cut);
    } else if step.RecordExt? || step.RecordSha? {
      RecordKeepsBounded(s, step, key, joined, cut);
    } else {
      EndKeepsBounded(s, step, key, joined, cut);
    }
  }

  lemma {:induction false} RunKeepsBounded(s: Sys, steps: seq<Step>, t: Sys, key: Key, joined: nat, cut: nat)
    requires Bounded(s, key, joined, cut) && Runs(s, steps, t)
    ensures Bounded(t, key, joined + Joined(s, steps, key), cut + CutOff(s, steps, key))
    decreases steps
  {
    if steps != [] {
      StepKeepsBounded(s, steps[0], key, joined, cut);
      RunKeepsBounded(Apply(s, steps[0]), steps[1..], t, key, joined + (if Joins(s, steps[0], key) then 1 else 0),
                      cut + if Cuts(s, steps[0], key) then 1 else 0);
    }
  }

  /**
   In every run, however calls interleave and whatever becomes of other texts: the scored rows
   that own a key are at most one, plus one for each call that started on it while another one
   was at it, plus one for each call dropped that owed it, both before it was first recorded.
   */
  lemma ScoredRowsAreBounded(steps: seq<Step>, t: Sys, key: Key)
    requires Runs(NOTHING, steps, t)
    ensures |Owners(t.db, key)| <= 1 + Joined(NOTHING, steps, key) + CutOff(NOTHING, steps, key)
  {
    assert Owners(NOTHING.db, key) == {} && Flight(NOTHING, key) == {};
    RunKeepsBounded(NOTHING, steps, t, key, 0, 0);
    WhenRecorded(t, key);
  }

  ghost predicate NoSharedFingerprint(db: Db) {
    forall i, j | IsScored(db, i) && IsScored(db, j) && i != j ::
      && db.events[i].env.sha != db.events[j].env.sha
      && (db.events[i].env.externalId != "" ==> db.events[i].env.externalId != db.events[j].env.externalId)
  }

  lemma AtMostOne(db: Db, key: Key, i: EventId, j: EventId)
    requires |Owners(db, key)| <= 1 && ScoredOwner(db, i, key) && ScoredOwner(db, j, key)
    ensures i == j
  {
    SubsetSize({i, j}, Owners(db, key));
  }

  /** If there is neither for any key, no two scored rows share a text hash or an external id. */
  lemma OrderlyCallsScoreOnce(steps: seq<Step>, t: Sys)
    requires Runs(NOTHING, steps, t) && forall key :: Joined(NOTHING, steps, key) + CutOff(NOTHING, steps, key) == 0
    ensures NoSharedFingerprint(t.db)
  {
    forall i, j, key | ScoredOwner(t.db, i, key) && ScoredOwner(t.db, j, key)
      ensures i == j
    {
      ScoredRowsAreBounded(steps, t, key);
      AtMostOne(t.db, key, i, j);
    }
    forall i, j | IsScored(t.db, i) && IsScored(t.db, j) && i != j
      ensures t.db.events[i].env.sha != t.db.events[j].env.sha
      ensures t.db.events[i].env.externalId != "" ==> t.db.events[i].env.externalId != t.db.events[j].env.externalId
    {
      var sha, ext := Key(t.db.events[i].env.sha, Sha256), Key(t.db.events[i].env.externalId, ExternalId);
      assert ScoredOwner(t.db, i, sha) && !ScoredOwner(t.db, j, sha);
      assert ScoredOwner(t.db, i, ext) ==> !ScoredOwner(t.db, j, ext);
    }
  }

  // ----- the bound is reached -----

  /** A run, with how many calls joined in on the key and how many were cut. */
  ghost predicate Moves(s: Sys, steps: seq<Step>, t: Sys, key: Key, joined: nat, cut: nat) {
    Runs(s, steps, t) && Joined(s, steps, key) == joined && CutOff(s, steps, key) == cut
  }

  lemma {:induction false} Together(s: Sys, steps: seq<Step>, t: Sys, key: Key, joined: nat, cut: nat,
                                    more: seq<Step>, u: Sys, joinedToo: nat, cutToo: nat)
    requires Moves(s, steps, t, key, joined, cut) && Moves(t, more, u, key, joinedToo, cutToo)
    ensures Moves(s, steps + more, u, key, joined + joinedToo, cut + cutToo)
    decreases steps
  {
    if steps == [] {
      assert steps + more == more;
    } else {
      var next := Apply(s, steps[0]);
      assert (steps + more)[1..] == steps[1..] + more;
      Together(next, steps[1..], t, key, Joined(next, steps[1..], key), CutOff(next, steps[1..], key), more, u, joinedToo, cutToo);
    }
  }

  predicate NoCrash(steps: seq<Step>) {
    forall step | step in steps :: !step.Crash?
  }

  /** Without a crash nothing is cut, and without a delivery nothing joins. */
  lemma {:induction false} Uncounted(s: Sys, steps: seq<Step>, t: Sys, key: Key)
    requires Runs(s, steps, t)
    ensures NoCrash(steps) ==> CutOff(s, steps, key) == 0
    ensures (forall step | step in steps :: !step.Deliver?) ==> Joined(s, steps, key) == 0
    decreases steps
  {
    if steps != [] {
      Uncounted(Apply(s, steps[0]), steps[1..], t, key);
    }
  }

  /** n rows scored for one envelope, the last m of them by calls that still owe its fingerprints. */
  function Rows(env: Envelope, n: nat): (rows: map<EventId, Event>)
    ensures forall id :: id in rows <==> 0 <= id < n
    ensures forall id | id in rows :: rows[id] == Event(env, Triaged, Some(Llm), None, false)
  {
    if n == 0 then map[] else Rows(env, n - 1)[n - 1 := Event(env, Triaged, Some(Llm), None, false)]
  }

  function Inserters(env: Envelope, first: EventId, m: nat): (calls: map<nat, Pc>)
    ensures forall c :: c in calls <==> 0 <= c < m
    ensures forall c | c in calls :: calls[c] == Inserted(env, first + c)
  {
    if m == 0 then map[] else Inserters(env, first, m - 1)[m - 1 := Inserted(env, first + m - 1)]
  }

  function At(env: Envelope, n: nat, m: nat): Sys
    requires m <= n
  {
    Sys(Db(Rows(env, n), map[], {}, {}), Inserters(env, n - m, m))
  }

  lemma OwnersOfRows(env: Envelope, n: nat, key: Key, db: Db)
    requires OwnKey(env, key) && db.events == Rows(env, n)
    ensures |Owners(db, key)| == n
    decreases n
  {
    if n == 0 {
      assert Owners(db, key) == {};
    } else {
      var before := db.(events := Rows(env, n - 1));
      OwnersOfRows(env, n - 1, key, before);
      OneMore(Owners(before, key), Owners(db, key), n - 1);
    }
  }

  function CallSteps(env: Envelope, n: nat, m: nat): seq<Step> {
    PassSteps(m, env, n) + [ScoreAndInsert(m, Llm, n)]
  }

  /** One more call passes both checks, as nothing is recorded, and is scored. */
  lemma OneMoreScores(env: Envelope, n: nat, m: nat)
    requires m <= n
    ensures Runs(At(env, n, m), CallSteps(env, n, m), At(env, n + 1, m + 1))
  {
    var s, t, insert := At(env, n, m), At(env, n + 1, m + 1), ScoreAndInsert(m, Llm, n);
    var passed := s.(calls := s.calls[m := PassedStage2(env)]);
    PassesChecks(s, m, env, n);
    assert passed.calls[m := Inserted(env, n)] == t.calls;
    assert Apply(passed, insert) == t;
    RunsOne(passed, [insert], t);
    RunsAppend(s, PassSteps(m, env, n), passed, [insert], t);
  }

  /** It joined if another one is in flight. */
  lemma OneMoreCall(env: Envelope, key: Key, n: nat, m: nat)
    requires OwnKey(env, key) && m <= n
    ensures Moves(At(env, n, m), CallSteps(env, n, m), At(env, n + 1, m + 1), key, if m > 0 then 1 else 0, 0)
    ensures NoCrash(CallSteps(env, n, m))
  {
    var s, steps, t := At(env, n, m), CallSteps(env, n, m), At(env, n + 1, m + 1);
    OneMoreScores(env, n, m);
    assert m > 0 ==> 0 in Flight(s, key);
    assert forall step | step in steps[1..] :: !step.Deliver?;
    Uncounted(s, steps, t, key);
    Uncounted(Apply(s, steps[0]), steps[1..], t, key);
  }

  lemma CutCall(env: Envelope, key: Key, n: nat)
    requires OwnKey(env, key) && n > 0
    ensures Moves(At(env, n, 1), [Crash(0)], At(env, n, 0), key, 0, 1)
  {
    assert Apply(At(env, n, 1), Crash(0)) == At(env, n, 0);
    assert [Crash(0)][1..] == [];
  }

  /** A run from nothing that leaves n rows, m of them owed, with its counts; without a crash if nothing is cut. */
  ghost predicate Reaches(env: Envelope, key: Key, steps: seq<Step>, n: nat, m: nat, joined: nat, cut: nat) {
    m <= n && Moves(NOTHING, steps, At(env, n, m), key, joined, cut) && (cut == 0 ==> NoCrash(steps))
  }

  lemma ThenOneMore(env: Envelope, key: Key, before: seq<Step>, n: nat, m: nat, joined: nat, cut: nat)
    requires OwnKey(env, key) && Reaches(env, key, before, n, m, joined, cut)
    ensures Reaches(env, key, before + CallSteps(env, n, m), n + 1, m + 1, joined + if m > 0 then 1 else 0, cut)
  {
    OneMoreCall(env, key, n, m);
    Together(NOTHING, before, At(env, n, m), key, joined, cut,
             CallSteps(env, n, m), At(env, n + 1, m + 1), if m > 0 then 1 else 0, 0);
  }

  lemma ThenCut(env: Envelope, key: Key, before: seq<Step>, n: nat, cut: nat)
    requires OwnKey(env, key) && n > 0 && Reaches(env, key, before, n, 1, 0, cut)
    ensures Reaches(env, key, before + [Crash(0)], n, 0, 0, cut + 1)
  {
    CutCall(env, key, n);
    Together(NOTHING, before, At(env, n, 1), key, 0, cut, [Crash(0)], At(env, n, 0), 0, 1);
  }

  /** Each call that is cut leaves a row. */
  lemma {:induction false} EachCutScores(env: Envelope, key: Key, cut: nat) returns (steps: seq<Step>)
    requires OwnKey(env, key)
    ensures Reaches(env, key, steps, cut, 0, 0, cut)
  {
    if cut == 0 {
      steps := [];
    } else {
      steps := EachCutScores(env, key, cut - 1);
      ThenOneMore(env, key, steps, cut - 1, 0, 0, cut - 1);
      steps := steps + CallSteps(env, cut - 1, 0);
      ThenCut(env, key, steps, cut, cut - 1);
      steps := steps + [Crash(0)];
    }
  }

  /** After that, a further call leaves a row, and so does each one that joins it. */
  lemma {:induction false} EachCallScores(env: Envelope, key: Key, joined: nat, cut: nat) returns (steps: seq<Step>)
    requires OwnKey(env, key)
    ensures Reaches(env, key, steps, cut + joined + 1, joined + 1, joined, cut)
  {
    var n := cut + joined;
    if joined == 0 {
      var before := EachCutScores(env, key, cut);
      ThenOneMore(env, key, before, n, 0, 0, cut);
      return before + CallSteps(env, n, 0);
    }
    var before := EachCallScores(env, key, joined - 1, cut);
    assert Reaches(env, key, before, n, joined, joined - 1, cut);
    ThenOneMore(env, key, before, n, joined, joined - 1, cut);
    return before + CallSteps(env, n, joined);
  }

  /**
   So the bound is reached, for every envelope, each of its keys and every number of calls
   that join in and that are cut; without any crash by the calls alone.
   */
  lemma ScoredRowsReachTheBound(env: Envelope, key: Key, joined: nat, cut: nat)
    requires OwnKey(env, key)
    ensures exists steps, t :: Moves(NOTHING, steps, t, key, joined, cut) && |Owners(t.db, key)| == 1 + joined + cut
                               && (cut == 0 ==> NoCrash(steps))
  {
    var steps := EachCallScores(env, key, joined, cut);
    OwnersOfRows(env, cut + joined + 1, key, At(env, cut + joined + 1, joined + 1).db);
  }
}
