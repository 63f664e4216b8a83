/**
 The consumer-group protocol of triage (dead_letter_sweep, _process_entry,
 _reclaim_pending and _consume_once in tradingagents/sensing/triage.py): delivery,
 pending entries, reclaim, dead-lettering and acknowledgement, in any interleaving
 and with crashes anywhere.
 */
module StreamProtocol {
  import opened Basics

  /** Entries are numbered in stream order. */
  type Id = nat

  datatype Config = Config(maxDeliveries: int, hasDeadStream: bool)

  /**
   What one worker is doing with one delivered entry, between two Redis commands.
   `number` is the delivery count the entry had when this worker received it, and
   `fields` whether it received the payload (a trimmed entry has none).
   */
  datatype Work =
    | Claimed(id: Id, number: nat, fields: bool)   // reclaimed; the pending query comes next
    | Ready(id: Id, number: nat, fields: bool)     // about to run the pipeline
    | Done(id: Id)                                 // the pipeline returned; XACK comes next
    | Listed(id: Id)                               // listed by the sweep; XRANGE comes next
    | Doomed(id: Id, fields: bool)                 // to be copied to the dead stream
    | Buried(id: Id, fields: bool)                 // copied (if it had a payload); XACK comes next

  /**
   The stream and its group. `added` entries were appended, of which those below
   `delivered` were handed out once; `pel` maps pending ids to their delivery count;
   `dead` lists the copies in the dead stream. `processed`, `ran` (the delivery numbers
   on which an entry was run while pending), `attempts` (how many such runs there
   were) and `blind` (the numbers whose pending query failed) record the history.
   */
  datatype Sys = Sys(added: nat, trimmed: set<Id>, delivered: nat, pel: map<Id, nat>, dead: seq<Id>,
                     work: map<nat, Work>, processed: set<Id>,
                     ran: map<Id, set<nat>>, attempts: map<Id, nat>, blind: map<Id, set<nat>>)

  const EMPTY := Sys(0, {}, 0, map[], [], map[], {}, map[], map[], map[])

  function Numbers(m: map<Id, set<nat>>, id: Id): set<nat> {
    if id in m then m[id] else {}
  }

  function Attempts(s: Sys, id: Id): nat {
    if id in s.attempts then s.attempts[id] else 0
  }

  /** One Redis command, or one run of the pipeline, by one worker `w`. */
  datatype Step =
    | Add
    | Trim(id: Id)
    | Read(w: nat)                   // XREADGROUP ">": the next undelivered entry
    | Skip                           // the next undelivered entry was trimmed
    | AutoClaim(w: nat, id: Id)      // XAUTOCLAIM of an idle pending entry, whoever owns it
    | Query(w: nat, fails: bool)     // XPENDING of one claimed entry
    | Run(w: nat, succeeds: bool)    // process_one
    | List(w: nat, id: Id)           // XPENDING of the sweep lists an entry at the limit
    | Range(w: nat)                  // XRANGE of a listed entry
    | Bury(w: nat)                   // XADD to the dead stream
    | Ack(w: nat)                    // XACK
    | Crash(w: nat)

  ghost predicate Enabled(c: Config, s: Sys, step: Step) {
    match step
    case Add => true
    case Trim(id) => id < s.added
    case Read(w) => w !in s.work && s.delivered < s.added && s.delivered !in s.trimmed
    case Skip => s.delivered < s.added && s.delivered in s.trimmed
    case AutoClaim(w, id) => w !in s.work && id in s.pel
    case Query(w, _) => w in s.work && s.work[w].Claimed?
    case Run(w, succeeds) => w in s.work && s.work[w].Ready? && (succeeds ==> s.work[w].fields)
    case List(w, id) => w !in s.work && id in s.pel && s.pel[id] >= c.maxDeliveries
    case Range(w) => w in s.work && s.work[w].Listed?
    case Bury(w) => w in s.work && s.work[w].Doomed?
    case Ack(w) => w in s.work && (s.work[w].Done? || s.work[w].Buried?)
    case Crash(w) => w in s.work
  }

  /** A run of a pending entry is noted: one that ends, or one that a crash of its worker cuts short. */
  function Noted(s: Sys, w: nat): Sys
    requires w in s.work
  {
    var k := s.work[w];
    if k.Ready? && k.id in s.pel
    then s.(ran := s.ran[k.id := Numbers(s.ran, k.id) + {k.number}], attempts := s.attempts[k.id := Attempts(s, k.id) + 1])
    else s
  }

  function Apply(c: Config, s: Sys, step: Step): Sys
    requires Enabled(c, s, step)
  {
    match step
    case Add => s.(added := s.added + 1)
    case Trim(id) => s.(trimmed := s.trimmed + {id})
    case Read(w) =>
      s.(delivered := s.delivered + 1, pel := s.pel[s.delivered := 1],
         work := s.work[w := Ready(s.delivered, 1, true)])
    case Skip => s.(delivered := s.delivered + 1)
    case AutoClaim(w, id) =>
      s.(pel := s.pel[id := s.pel[id] + 1], work := s.work[w := Claimed(id, s.pel[id] + 1, id !in s.trimmed)])
    case Query(w, fails) =>
      var Claimed(id, number, fields) := s.work[w];
      var over := !fails && id in s.pel && s.pel[id] >= c.maxDeliveries;
      s.(work := s.work[w := if over && c.hasDeadStream then Doomed(id, fields) else Ready(id, number, fields)],
         blind := if fails then s.blind[id := Numbers(s.blind, id) + {number}] else s.blind)
    case Run(w, succeeds) =>
      if succeeds then Noted(s, w).(processed := s.processed + {s.work[w].id}, work := s.work[w := Done(s.work[w].id)])
      else Noted(s, w).(work := s.work - {w})
    case List(w, id) => s.(work := s.work[w := Listed(id)])
    case Range(w) => s.(work := s.work[w := Doomed(s.work[w].id, s.work[w].id !in s.trimmed)])
    case Bury(w) =>
      var Doomed(id, fields) := s.work[w];
      s.(dead := if fields then s.dead + [id] else s.dead, work := s.work[w := Buried(id, fields)])
    case Ack(w) => s.(pel := s.pel - {s.work[w].id}, work := s.work - {w})
    case Crash(w) => Noted(s, w).(work := s.work - {w})
  }

  ghost predicate Runs(c: Config, s: Sys, steps: seq<Step>, t: Sys)
    decreases steps
  {
    if steps == [] then t == s
    else Enabled(c, s, steps[0]) && Runs(c, Apply(c, s, steps[0]), steps[1..], t)
  }

  // ----- no message is lost -----

  /** Where an entry can be. Only trimming the stream loses one. */
  ghost predicate Accounted(s: Sys, id: Id) {
    || id >= s.delivered
    || id in s.pel
    || id in s.processed
    || id in s.dead
    || id in s.trimmed
  }

  ghost predicate Kept(s: Sys) {
    && s.delivered <= s.added
    && (forall id | id in s.pel :: id < s.delivered)
    && (forall id: Id | id < s.added :: Accounted(s, id))
    && (forall w | w in s.work ::
          var k := s.work[w];
          && (k.Done? ==> k.id in s.processed)
          && ((k.Claimed? || k.Ready? || k.Doomed? || k.Buried?) && !k.fields ==> k.id in s.trimmed)
          && (k.Buried? && k.fields ==> k.id in s.dead))
  }

  lemma StepKeeps(c: Config, s: Sys, step: Step)
    requires Enabled(c, s, step) && Kept(s)
    ensures Kept(Apply(c, s, step))
  {
    var t := Apply(c, s, step);
    forall id: Id | id < t.added
      ensures Accounted(t, id)
    {
      assert id < s.added ==> Accounted(s, id);
    }
  }

  /**
   In every interleaving of consumers, reclaims, sweeps and crashes: an entry that was
   delivered and is no longer pending was processed, or copied to the dead stream
   before its acknowledgement, or trimmed. Without trimming nothing is lost.
   */
  lemma {:induction false} NoMessageLost(c: Config, s: Sys, steps: seq<Step>, t: Sys)
    requires Kept(s) && Runs(c, s, steps, t)
    ensures Kept(t)
    ensures t.trimmed == {} ==>
              forall id: Id | id < t.added :: id >= t.delivered || id in t.pel || id in t.processed || id in t.dead
    decreases steps
  {
    if steps == [] {
      if t.trimmed == {} {
        forall id: Id | id < t.added
          ensures id >= t.delivered || id in t.pel || id in t.processed || id in t.dead
        {
          assert Accounted(t, id);
        }
      }
    } else {
      StepKeeps(c, s, steps[0]);
      NoMessageLost(c, Apply(c, s, steps[0]), steps[1..], t);
    }
  }

  // ----- a failing message is run a bounded number of times -----

  /** A piece of work that may still run the pipeline on delivery `number` of an entry. */
  predicate MayRun(k: Work) {
    k.Claimed? || k.Ready?
  }

  /** The delivery numbers on which a run is expected: the first, and those below the limit. */
  ghost predicate Expected(c: Config, s: Sys, id: Id, number: nat) {
    number == 1 || 1 < number < c.maxDeliveries || number in Numbers(s.blind, id)
  }

  /** A piece of work that may still run an entry holds a delivery number not used for a run yet. */
  ghost predicate WorkCounted(c: Config, s: Sys, k: Work) {
    MayRun(k) ==>
      && 1 <= k.number && k.id < s.delivered
      && (k.id in s.pel ==> k.number <= s.pel[k.id])
      && k.number !in Numbers(s.ran, k.id)
      && (k.Ready? && k.id in s.pel ==> Expected(c, s, k.id, k.number))
  }

  /** No two pieces of work hold the same delivery of the same entry. */
  ghost predicate Distinct(j: Work, k: Work) {
    MayRun(j) && MayRun(k) && j.id == k.id ==> j.number != k.number
  }

  /** The runs of an entry while pending, counted, are its distinct run numbers, all expected. */
  ghost predicate RanCounted(c: Config, s: Sys, id: Id) {
    && Attempts(s, id) == |Numbers(s.ran, id)|
    && (id >= s.delivered ==> Numbers(s.ran, id) == {})
    && (forall n | n in Numbers(s.ran, id) :: Expected(c, s, id, n) && (id in s.pel ==> n <= s.pel[id]))
  }

  ghost predicate Counted(c: Config, s: Sys) {
    && (forall id | id in s.pel :: 1 <= s.pel[id] && id < s.delivered)
    && (forall w | w in s.work :: WorkCounted(c, s, s.work[w]))
    && (forall v, w | v in s.work && w in s.work && v != w :: Distinct(s.work[v], s.work[w]))
    && (forall id: Id :: RanCounted(c, s, id))
  }

  /** The step ends the run of an entry, one way or another. */
  predicate EndsRun(s: Sys, step: Step) {
    (step.Run? || step.Crash?) && step.w in s.work && s.work[step.w].Ready?
  }

  lemma RunKeepsOtherWork(c: Config, s: Sys, step: Step, w: nat)
    requires Enabled(c, s, step) && EndsRun(s, step) && WorkCounted(c, s, s.work[step.w])
    requires w in s.work && w != step.w && WorkCounted(c, s, s.work[w]) && Distinct(s.work[step.w], s.work[w])
    ensures WorkCounted(c, Apply(c, s, step), s.work[w])
  {
  }

  lemma ReceivedIsCounted(c: Config, s: Sys, step: Step)
    requires Enabled(c, s, step) && (step.Read? || step.AutoClaim?)
    requires forall id | id in s.pel :: 1 <= s.pel[id] && id < s.delivered
    requires RanCounted(c, s, if step.Read? then s.delivered else step.id)
    ensures WorkCounted(c, Apply(c, s, step), Apply(c, s, step).work[step.w])
  {
  }

  lemma StepKeepsWork(c: Config, s: Sys, step: Step, w: nat)
    requires Enabled(c, s, step) && Counted(c, s) && c.hasDeadStream
    requires w in Apply(c, s, step).work
    ensures WorkCounted(c, Apply(c, s, step), Apply(c, s, step).work[w])
  {
    if EndsRun(s, step) && w != step.w {
      assert Distinct(s.work[step.w], s.work[w]);
      RunKeepsOtherWork(c, s, step, w);
    } else if (step.Read? || step.AutoClaim?) && w == step.w {
      assert RanCounted(c, s, if step.Read? then s.delivered else step.id);
      ReceivedIsCounted(c, s, step);
    } else if !EndsRun(s, step) && w in s.work {
      assert WorkCounted(c, s, s.work[w]);
      OtherStepKeepsWork(c, s, step, w);
    }
  }

  lemma OtherStepKeepsWork(c: Config, s: Sys, step: Step, w: nat)
    requires Enabled(c, s, step) && c.hasDeadStream && !EndsRun(s, step)
    requires w in s.work && WorkCounted(c, s, s.work[w]) && w in Apply(c, s, step).work
    ensures WorkCounted(c, Apply(c, s, step), Apply(c, s, step).work[w])
  {
  }

  lemma StepKeepsDistinct(c: Config, s: Sys, step: Step, v: nat, w: nat)
    requires Enabled(c, s, step) && Counted(c, s)
    requires v in Apply(c, s, step).work && w in Apply(c, s, step).work && v != w
    ensures Distinct(Apply(c, s, step).work[v], Apply(c, s, step).work[w])
  {
  }

  lemma RunKeepsRan(c: Config, s: Sys, step: Step, id: Id)
    requires Enabled(c, s, step) && EndsRun(s, step) && WorkCounted(c, s, s.work[step.w]) && RanCounted(c, s, id)
    ensures RanCounted(c, Apply(c, s, step), id)
  {
    var k, t := s.work[step.w], Apply(c, s, step);
    if k.id == id && id in s.pel {
      assert Numbers(t.ran, id) == Numbers(s.ran, id) + {k.number};
      assert |Numbers(s.ran, id) + {k.number}| == |Numbers(s.ran, id)| + 1;
    } else {
      assert Numbers(t.ran, id) == Numbers(s.ran, id);
    }
  }

  lemma StepKeepsRan(c: Config, s: Sys, step: Step, id: Id)
    requires Enabled(c, s, step) && Counted(c, s)
    ensures RanCounted(c, Apply(c, s, step), id)
  {
    assert RanCounted(c, s, id);
    if EndsRun(s, step) {
      assert WorkCounted(c, s, s.work[step.w]);
      RunKeepsRan(c, s, step, id);
    } else {
      OtherStepKeepsRan(c, s, step, id);
    }
  }

  lemma OtherStepKeepsRan(c: Config, s: Sys, step: Step, id: Id)
    requires Enabled(c, s, step) && !EndsRun(s, step) && RanCounted(c, s, id)
    ensures RanCounted(c, Apply(c, s, step), id)
  {
  }

  lemma StepKeepsCount(c: Config, s: Sys, step: Step)
    requires Enabled(c, s, step) && Counted(c, s) && c.hasDeadStream
    ensures Counted(c, Apply(c, s, step))
  {
    var t := Apply(c, s, step);
    forall w | w in t.work
      ensures WorkCounted(c, t, t.work[w])
    {
      StepKeepsWork(c, s, step, w);
    }
    forall v, w | v in t.work && w in t.work && v != w
      ensures Distinct(t.work[v], t.work[w])
    {
      StepKeepsDistinct(c, s, step, v, w);
    }
    forall id: Id
      ensures RanCounted(c, t, id)
    {
      StepKeepsRan(c, s, step, id);
    }
  }

  lemma {:induction false} RunKeepsCounted(c: Config, s: Sys, steps: seq<Step>, t: Sys)
    requires Counted(c, s) && c.hasDeadStream && Runs(c, s, steps, t)
    ensures Counted(c, t)
    decreases steps
  {
    if steps != [] {
      StepKeepsCount(c, s, steps[0]);
      RunKeepsCounted(c, Apply(c, s, steps[0]), steps[1..], t);
    }
  }

  /** A set of numbers from 1 to n has at most n elements. */
  lemma {:induction false} AtMost(numbers: set<nat>, n: nat)
    requires forall k | k in numbers :: 1 <= k <= n
    ensures |numbers| <= n
  {
    if n == 0 {
      assert numbers == {};
    } else {
      AtMost(numbers - {n}, n - 1);
      assert |numbers| <= |numbers - {n}| + 1;
    }
  }

  /**
   With a dead stream, the noted runs of an entry are at most max(1, maxDeliveries - 1),
   plus one per delivery whose pending query failed.
   */
  lemma AttemptsAreBounded(c: Config, steps: seq<Step>, t: Sys, id: Id)
    requires c.hasDeadStream && Runs(c, EMPTY, steps, t)
    ensures Attempts(t, id) <= Max(1, c.maxDeliveries - 1) + |Numbers(t.blind, id)|
  {
    RunKeepsCounted(c, EMPTY, steps, t);
    assert RanCounted(c, t, id);
    var ran, blind := Numbers(t.ran, id), Numbers(t.blind, id);
    AtMost(ran - blind, Max(1, c.maxDeliveries - 1));
    assert ran <= (ran - blind) + blind;
    SubsetSize(ran, (ran - blind) + blind);
    assert |(ran - blind) + blind| == |ran - blind| + |blind|;
  }

  lemma {:induction false} SubsetSize(a: set<nat>, b: set<nat>)
    requires a <= b
    ensures |a| <= |b|
  {
    if a != {} {
      var x :| x in a;
      SubsetSize(a - {x}, b - {x});
    }
  }

  /** How many runs of the entry end, or are cut short, in these steps. */
  ghost function RunsOf(c: Config, s: Sys, steps: seq<Step>, id: Id): nat
    decreases steps
  {
    if steps == [] || !Enabled(c, s, steps[0]) then 0
    else
      RunsOf(c, Apply(c, s, steps[0]), steps[1..], id)
      + if EndsRun(s, steps[0]) && s.work[steps[0].w].id == id then 1 else 0
  }

  /** The entry has neither succeeded nor reached the dead stream, nor was it trimmed. */
  predicate Unsettled(s: Sys, id: Id) {
    id !in s.processed && id !in s.dead && id !in s.trimmed
  }

  lemma StepOnlySettles(c: Config, s: Sys, step: Step, id: Id)
    requires Enabled(c, s, step) && Unsettled(Apply(c, s, step), id)
    ensures Unsettled(s, id)
  {
  }

  lemma {:induction false} RunOnlySettles(c: Config, s: Sys, steps: seq<Step>, t: Sys, id: Id)
    requires Runs(c, s, steps, t) && Unsettled(t, id)
    ensures Unsettled(s, id)
    decreases steps
  {
    if steps != [] {
      RunOnlySettles(c, Apply(c, s, steps[0]), steps[1..], t, id);
      StepOnlySettles(c, s, steps[0], id);
    }
  }

  /** While the entry is unsettled it is pending, so every run of it is noted. */
  lemma StepNotesRuns(c: Config, s: Sys, step: Step, id: Id)
    requires Enabled(c, s, step) && Kept(s) && Counted(c, s) && Unsettled(s, id)
    ensures Attempts(Apply(c, s, step), id) == Attempts(s, id) + if EndsRun(s, step) && s.work[step.w].id == id then 1 else 0
  {
    if EndsRun(s, step) && s.work[step.w].id == id {
      assert WorkCounted(c, s, s.work[step.w]);
      assert Accounted(s, id);
    }
  }

  lemma {:induction false} RunsAreNoted(c: Config, s: Sys, steps: seq<Step>, t: Sys, id: Id)
    requires c.hasDeadStream && Kept(s) && Counted(c, s) && Runs(c, s, steps, t) && Unsettled(t, id)
    ensures Attempts(t, id) == Attempts(s, id) + RunsOf(c, s, steps, id)
    decreases steps
  {
    if steps != [] {
      RunOnlySettles(c, s, steps, t, id);
      StepKeeps(c, s, steps[0]);
      StepKeepsCount(c, s, steps[0]);
      StepNotesRuns(c, s, steps[0], id);
      RunsAreNoted(c, Apply(c, s, steps[0]), steps[1..], t, id);
    }
  }

  /**
   With a dead stream, an entry that has not succeeded, reached the dead stream or been
   trimmed was run at most max(1, maxDeliveries - 1) times, plus once per delivery whose
   pending query failed: across all consumers, reclaims, sweeps and crashes, the runs that
   crashes cut short included.
   */
  lemma FailingRunsAreBounded(c: Config, steps: seq<Step>, t: Sys, id: Id)
    requires c.hasDeadStream && Runs(c, EMPTY, steps, t) && Unsettled(t, id)
    ensures RunsOf(c, EMPTY, steps, id) <= Max(1, c.maxDeliveries - 1) + |Numbers(t.blind, id)|
  {
    RunsAreNoted(c, EMPTY, steps, t, id);
    AttemptsAreBounded(c, steps, t, id);
  }

  // ----- the bound is reached, and needs the dead stream -----

  /** Entry 0 was delivered k times and failed each time; the pending query failed on b of them. */
  ghost predicate Failing(s: Sys, k: nat, b: nat) {
    && s.added == s.delivered == 1 && s.trimmed == {} && s.work == map[] && s.pel == map[0 := k]
    && s.processed == {} && s.dead == [] && Attempts(s, 0) == k
    && |Numbers(s.blind, 0)| == b && forall n | n in Numbers(s.blind, 0) :: n <= k
  }

  lemma FailsFirst(c: Config) returns (steps: seq<Step>, t: Sys)
    ensures Runs(c, EMPTY, steps, t) && Failing(t, 1, 0)
  {
    var s1 := Apply(c, EMPTY, Add);
    var s2 := Apply(c, s1, Read(0));
    t := Apply(c, s2, Run(0, false));
    RunsOne(c, s2, [Run(0, false)], t);
    RunsOne(c, s1, [Read(0), Run(0, false)], t);
    RunsOne(c, EMPTY, [Add, Read(0), Run(0, false)], t);
    steps := [Add, Read(0), Run(0, false)];
  }

  lemma FailsAgain(c: Config, s: Sys, k: nat, b: nat, fails: bool) returns (steps: seq<Step>, t: Sys)
    requires Failing(s, k, b) && (fails || k + 1 < c.maxDeliveries || !c.hasDeadStream)
    ensures Runs(c, s, steps, t) && Failing(t, k + 1, if fails then b + 1 else b)
  {
    var s1 := Apply(c, s, AutoClaim(0, 0));
    var s2 := ReadyAgain(c, s, k, b, fails);
    t := RunAgain(c, s2, k, if fails then b + 1 else b);
    RunsOne(c, s2, [Run(0, false)], t);
    RunsOne(c, s1, [Query(0, fails), Run(0, false)], t);
    RunsOne(c, s, [AutoClaim(0, 0), Query(0, fails), Run(0, false)], t);
    steps := [AutoClaim(0, 0), Query(0, fails), Run(0, false)];
  }

  /** The same entry, claimed once more and about to run. */
  ghost predicate About(s: Sys, k: nat, b: nat) {
    && s.added == s.delivered == 1 && s.trimmed == {} && s.work == map[0 := Ready(0, k + 1, true)] && s.pel == map[0 := k + 1]
    && s.processed == {} && s.dead == [] && Attempts(s, 0) == k
    && |Numbers(s.blind, 0)| == b && forall n | n in Numbers(s.blind, 0) :: n <= k + 1
  }

  lemma ReadyAgain(c: Config, s: Sys, k: nat, b: nat, fails: bool) returns (t: Sys)
    requires Failing(s, k, b) && (fails || k + 1 < c.maxDeliveries || !c.hasDeadStream)
    ensures Enabled(c, s, AutoClaim(0, 0)) && Enabled(c, Apply(c, s, AutoClaim(0, 0)), Query(0, fails))
    ensures t == Apply(c, Apply(c, s, AutoClaim(0, 0)), Query(0, fails)) && About(t, k, if fails then b + 1 else b)
  {
    var s1 := Apply(c, s, AutoClaim(0, 0));
    t := Apply(c, s1, Query(0, fails));
    assert s1.work == map[0 := Claimed(0, k + 1, true)] && s1.pel == map[0 := k + 1];
    assert k + 1 !in Numbers(s.blind, 0);
  }

  lemma RunAgain(c: Config, s: Sys, k: nat, b: nat) returns (t: Sys)
    requires About(s, k, b)
    ensures Enabled(c, s, Run(0, false)) && t == Apply(c, s, Run(0, false)) && Failing(t, k + 1, b)
  {
    t := Apply(c, s, Run(0, false));
    assert t.work == map[];
  }

  lemma {:induction false} KeepsFailing(c: Config, k: nat, b: nat) returns (steps: seq<Step>, t: Sys)
    requires b < k && (c.hasDeadStream ==> k - b <= Max(1, c.maxDeliveries - 1))
    ensures Runs(c, EMPTY, steps, t) && Failing(t, k, b)
    decreases k
  {
    if k == 1 {
      steps, t := FailsFirst(c);
    } else {
      var before, s := KeepsFailing(c, k - 1, if b > 0 then b - 1 else 0);
      var more: seq<Step>;
      more, t := FailsAgain(c, s, k - 1, if b > 0 then b - 1 else 0, b > 0);
      RunsAppend(c, EMPTY, before, s, more, t);
      steps := before + more;
    }
  }

  /** For every limit and every number of failed pending queries the bound is reached, by one entry that nobody shares. */
  lemma AttemptsReachTheBound(c: Config, blind: nat) returns (steps: seq<Step>, t: Sys)
    requires c.hasDeadStream
    ensures Runs(c, EMPTY, steps, t) && Unsettled(t, 0) && |Numbers(t.blind, 0)| == blind
    ensures Attempts(t, 0) == Max(1, c.maxDeliveries - 1) + blind
  {
    steps, t := KeepsFailing(c, Max(1, c.maxDeliveries - 1) + blind, blind);
  }

  /** Without a dead stream there is no bound: a failing entry can be run any number of times, whatever the limit. */
  lemma EndlessWithoutDeadStream(c: Config, n: nat) returns (steps: seq<Step>, t: Sys)
    requires !c.hasDeadStream && n > 0
    ensures Runs(c, EMPTY, steps, t) && Unsettled(t, 0) && Attempts(t, 0) == n && Numbers(t.blind, 0) == {}
  {
    steps, t := KeepsFailing(c, n, 0);
  }

  lemma RunsOne(c: Config, s: Sys, steps: seq<Step>, t: Sys)
    requires steps != [] && Enabled(c, s, steps[0])
    requires if |steps| == 1 then t == Apply(c, s, steps[0]) else Runs(c, Apply(c, s, steps[0]), steps[1..], t)
    ensures Runs(c, s, steps, t)
  {
  }

  lemma {:induction false} RunsAppend(c: Config, s: Sys, steps: seq<Step>, t: Sys, more: seq<Step>, u: Sys)
    requires Runs(c, s, steps, t) && Runs(c, t, more, u)
    ensures Runs(c, s, steps + more, u)
    decreases steps
  {
    if steps == [] {
      assert steps + more == more;
    } else {
      assert (steps + more)[1..] == steps[1..] + more;
      RunsAppend(c, Apply(c, s, steps[0]), steps[1..], t, more, u);
    }
  }
}
