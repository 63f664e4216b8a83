/**
 The operations on the queue and the actions, as they run on the database: each is proved
 to be one or more steps of ApprovalPipeline, so what holds in every interleaving holds
 for them.
 */
module Orchestrator {
  import opened Outcomes
  import opened ApprovalPipeline
  import opened Text

  /** What an answer asks for: every pending study of the brief, or one ticker's. */
  datatype Choice = All | One(ticker: string)

  /** `forge alert` compares the upper-cased option with the ticker; the bot upper-cases both. */
  predicate Chosen(a: Action, brief: nat, choice: Choice, foldBoth: bool) {
    && a.brief == brief && a.kind.Study? && a.state.Pending?
    && (choice.All?
        || (a.ticker.Some? && Upper(choice.ticker) == if foldBoth then Upper(a.ticker.value) else a.ticker.value))
  }

  /** Action i has the answer, whatever its state was, acceptance is on record, and nothing else changed. */
  ghost predicate AnswersOne(s: Sys, t: Sys, i: nat, accept: bool) {
    && t == s.(actions := t.actions, accepted := t.accepted)
    && i < |s.actions| == |t.actions|
    && t.actions[i] == s.actions[i].(state := if accept then Accepted else Declined)
    && (forall k | 0 <= k < |s.actions| && k != i :: t.actions[k] == s.actions[k])
    && (forall k :: k in t.accepted <==> k in s.accepted || (accept && k == i))
  }

  /** The answer given to every chosen action among the first n, and to no other. */
  ghost predicate AnsweredTo(s: Sys, t: Sys, brief: nat, choice: Choice, foldBoth: bool, accept: bool, n: nat) {
    && t == s.(actions := t.actions, accepted := t.accepted)
    && |t.actions| == |s.actions|
    && (forall i | 0 <= i < |s.actions| :: t.actions[i] ==
          if i < n && Chosen(s.actions[i], brief, choice, foldBoth)
          then s.actions[i].(state := if accept then Accepted else Declined)
          else s.actions[i])
    && (forall i :: i in t.accepted <==>
          || i in s.accepted
          || (accept && 0 <= i < n && i < |s.actions| && Chosen(s.actions[i], brief, choice, foldBoth)))
  }

  ghost predicate Answered(s: Sys, t: Sys, brief: nat, choice: Choice, foldBoth: bool, accept: bool) {
    AnsweredTo(s, t, brief, choice, foldBoth, accept, |s.actions|)
  }

  /** What the outside does to a leased job. */
  datatype Study = Breaks | BreaksLater(hasRuns: bool) | Succeeds(hasRuns: bool)

  // ----- draining one job, as a value and as a run -----

  predicate CanDrain(s: Sys, w: nat) {
    JobsKnown(s) && w !in s.workers && FirstQueued(s.jobs, 0) < |s.jobs|
  }

  /**
   The oldest queued job ends as done with its full study, which becomes its action's
   result, or as an error, with or without a brief left behind; nothing else changes.
   */
  function Drained(s: Sys, w: nat, now: int, study: Study): Sys
    requires CanDrain(s, w)
  {
    var id, brief := FirstQueued(s.jobs, 0), |s.briefs|;
    var job := s.jobs[id];
    var leased := s.(leases := s.leases + [id]);
    match study
    case Breaks => leased.(jobs := s.jobs[id := job.(phase := Error)])
    case BreaksLater(hasRuns) =>
      leased.(jobs := s.jobs[id := job.(phase := Error)],
              briefs := s.briefs + [Brief(Full, Some(job.parent), Some(job.event), job.ticker, hasRuns)])
    case Succeeds(hasRuns) =>
      leased.(jobs := s.jobs[id := job.(phase := Done(brief))],
              briefs := s.briefs + [Brief(Full, Some(job.parent), Some(job.event), job.ticker, hasRuns)],
              actions := s.actions[job.action := s.actions[job.action].(resultBacktest := None, resultBrief := Some(brief))])
  }

  function LeasedForm(s: Sys, w: nat, now: int): Sys
    requires CanDrain(s, w)
  {
    var id := FirstQueued(s.jobs, 0);
    s.(jobs := s.jobs[id := s.jobs[id].(phase := Running(now))], workers := s.workers[w := Leased(id)], leases := s.leases + [id])
  }

  function ComposedForm(s: Sys, w: nat, now: int, hasRuns: bool): Sys
    requires CanDrain(s, w)
  {
    var id := FirstQueued(s.jobs, 0);
    var job := s.jobs[id];
    LeasedForm(s, w, now).(briefs := s.briefs + [Brief(Full, Some(job.parent), Some(job.event), job.ticker, hasRuns)],
                           workers := s.workers[w := Composed(id, |s.briefs|)])
  }

  function LinkedForm(s: Sys, w: nat, now: int, hasRuns: bool): Sys
    requires CanDrain(s, w)
  {
    var id := FirstQueued(s.jobs, 0);
    var i := s.jobs[id].action;
    ComposedForm(s, w, now, hasRuns)
    .(actions := s.actions[i := s.actions[i].(resultBacktest := None, resultBrief := Some(|s.briefs|))],
      workers := s.workers[w := Linked(id, |s.briefs|)])
  }

  lemma LeaseStep(s: Sys, w: nat, now: int)
    requires CanDrain(s, w)
    ensures Enabled(s, Lease(w, now)) && Apply(s, Lease(w, now)) == LeasedForm(s, w, now)
  {
  }

  lemma ComposeStep(s: Sys, w: nat, now: int, hasRuns: bool)
    requires CanDrain(s, w)
    ensures Enabled(LeasedForm(s, w, now), Compose(w, hasRuns))
    ensures Apply(LeasedForm(s, w, now), Compose(w, hasRuns)) == ComposedForm(s, w, now, hasRuns)
  {
  }

  lemma LinkStep(s: Sys, w: nat, now: int, hasRuns: bool)
    requires CanDrain(s, w)
    ensures Enabled(ComposedForm(s, w, now, hasRuns), LinkAction(w))
    ensures Apply(ComposedForm(s, w, now, hasRuns), LinkAction(w)) == LinkedForm(s, w, now, hasRuns)
  {
    var id := FirstQueued(s.jobs, 0);
    assert s.workers[w := Composed(id, |s.briefs|)][w := Linked(id, |s.briefs|)] == s.workers[w := Linked(id, |s.briefs|)];
  }

  lemma FinishStep(s: Sys, w: nat, now: int, hasRuns: bool)
    requires CanDrain(s, w)
    ensures Enabled(LinkedForm(s, w, now, hasRuns), Finish(w))
    ensures Apply(LinkedForm(s, w, now, hasRuns), Finish(w)) == Drained(s, w, now, Succeeds(hasRuns))
  {
    var id := FirstQueued(s.jobs, 0);
    PhaseTwice(s.jobs, id, Running(now), Done(|s.briefs|));
    assert s.workers[w := Linked(id, |s.briefs|)] - {w} == s.workers;
  }

  lemma FailStep(s: Sys, w: nat, now: int)
    requires CanDrain(s, w)
    ensures Enabled(LeasedForm(s, w, now), Fail(w))
    ensures Apply(LeasedForm(s, w, now), Fail(w)) == Drained(s, w, now, Breaks)
  {
  }

  lemma FailLaterStep(s: Sys, w: nat, now: int, hasRuns: bool)
    requires CanDrain(s, w)
    ensures Enabled(ComposedForm(s, w, now, hasRuns), Fail(w))
    ensures Apply(ComposedForm(s, w, now, hasRuns), Fail(w)) == Drained(s, w, now, BreaksLater(hasRuns))
  {
    var id := FirstQueued(s.jobs, 0);
    PhaseTwice(s.jobs, id, Running(now), Error);
    assert s.workers[w := Composed(id, |s.briefs|)] - {w} == s.workers;
  }

  function DrainSteps(w: nat, now: int, study: Study): seq<Step> {
    match study
    case Breaks => [Lease(w, now), Fail(w)]
    case BreaksLater(hasRuns) => [Lease(w, now), Compose(w, hasRuns), Fail(w)]
    case Succeeds(hasRuns) => [Lease(w, now), Compose(w, hasRuns), LinkAction(w), Finish(w)]
  }

  /** Draining is a run of the protocol. */
  lemma DrainIsARun(s: Sys, w: nat, now: int, study: Study)
    requires CanDrain(s, w)
    ensures Runs(s, DrainSteps(w, now, study), Drained(s, w, now, study))
  {
    var t, leased := Drained(s, w, now, study), LeasedForm(s, w, now);
    LeaseStep(s, w, now);
    match study
    case Breaks =>
      FailStep(s, w, now);
      RunsOne(leased, Fail(w));
      Prepend(s, Lease(w, now), [Fail(w)], t);
    case BreaksLater(hasRuns) =>
      ComposeStep(s, w, now, hasRuns);
      FailLaterStep(s, w, now, hasRuns);
      RunsOne(ComposedForm(s, w, now, hasRuns), Fail(w));
      Prepend(leased, Compose(w, hasRuns), [Fail(w)], t);
      Prepend(s, Lease(w, now), [Compose(w, hasRuns), Fail(w)], t);
    case Succeeds(hasRuns) =>
      ComposeStep(s, w, now, hasRuns);
      LinkStep(s, w, now, hasRuns);
      FinishStep(s, w, now, hasRuns);
      RunsOne(LinkedForm(s, w, now, hasRuns), Finish(w));
      Prepend(ComposedForm(s, w, now, hasRuns), LinkAction(w), [Finish(w)], t);
      Prepend(leased, Compose(w, hasRuns), [LinkAction(w), Finish(w)], t);
      Prepend(s, Lease(w, now), [Compose(w, hasRuns), LinkAction(w), Finish(w)], t);
  }

  lemma PhaseTwice(jobs: seq<Job>, id: nat, first: Phase, second: Phase)
    requires id < |jobs|
    ensures jobs[id := jobs[id].(phase := first)][id := jobs[id].(phase := first).(phase := second)]
         == jobs[id := jobs[id].(phase := second)]
  {
  }

  /** One step more. */
  lemma Continue(s: Sys, steps: seq<Step>, t: Sys, step: Step) returns (more: seq<Step>)
    requires Runs(s, steps, t) && Enabled(t, step)
    ensures more == steps + [step] && Runs(s, more, Apply(t, step))
  {
    RunsOne(t, step);
    RunsAppend(s, steps, t, [step], Apply(t, step));
    more := steps + [step];
  }

  /** Expiry touches pending actions only. */
  lemma {:induction false} AcceptingExpired(s: Sys, now: int, n: nat)
    requires n <= |s.actions|
    ensures Accepting(Apply(s, Expire(now)).actions, n) == Accepting(s.actions, n)
  {
    if n > 0 {
      AcceptingExpired(s, now, n - 1);
    }
  }

  lemma UndisturbedTick(s: Sys, rows: seq<nat>, results: seq<Option<nat>>) returns (steps: seq<Step>)
    requires Anchored(s) && s.handler.Idle? && rows == Accepting(s.actions, |s.actions|) && |results| == |rows|
    ensures Runs(s, steps, Ticked(s, rows, results))
  {
    steps := TickIsARun(s, rows, results);
    var done := Ticked(s, rows, results);
    Prepend(s, Fetch, steps, done.(handler := Ticking([])));
    TickedHandler(s, rows, results);
    steps := Continue(s, [Fetch] + steps, done.(handler := Ticking([])), EndTick);
  }

  /** Answering is a run of the protocol: one Respond a chosen row. */
  lemma {:induction false} TransitionIsARun(s: Sys, t: Sys, brief: nat, choice: Choice, foldBoth: bool, accept: bool)
    returns (steps: seq<Step>)
    requires Answered(s, t, brief, choice, foldBoth, accept)
    ensures Runs(s, steps, t)
  {
    steps := AnswersFrom(s, t, s, brief, choice, foldBoth, accept, 0);
  }

  /** The answer given to all pending studies of the brief, or to those of the ticker, and to no other row. */
  ghost predicate AnswersPending(before: seq<Action>, after: seq<Action>, brief: nat, choice: Choice, foldBoth: bool, accept: bool) {
    && |after| == |before|
    && forall i | 0 <= i < |before| :: after[i] ==
         var a := before[i];
         if && a.brief == brief && a.kind == Study && a.state == Pending
            && (choice == All
                || (a.ticker != None && Upper(choice.ticker) == if foldBoth then Upper(a.ticker.value) else a.ticker.value))
         then a.(state := if accept then Accepted else Declined) else a
  }

  ghost function Changed(before: seq<Action>, after: seq<Action>): set<nat>
    requires |after| == |before|
  {
    set i: nat | i < |before| && after[i] != before[i]
  }

  ghost function ChosenRows(rows: seq<Action>, brief: nat, choice: Choice, foldBoth: bool, n: nat): set<nat>
    requires n <= |rows|
  {
    set i: nat | i < n && Chosen(rows[i], brief, choice, foldBoth)
  }

  lemma OneRowMore(rows: seq<Action>, brief: nat, choice: Choice, foldBoth: bool, n: nat)
    requires n < |rows|
    ensures |ChosenRows(rows, brief, choice, foldBoth, n + 1)|
         == |ChosenRows(rows, brief, choice, foldBoth, n)| + if Chosen(rows[n], brief, choice, foldBoth) then 1 else 0
  {
    var here := ChosenRows(rows, brief, choice, foldBoth, n);
    assert ChosenRows(rows, brief, choice, foldBoth, n + 1)
        == if Chosen(rows[n], brief, choice, foldBoth) then here + {n} else here;
  }

  lemma AnswersMean(s: Sys, t: Sys, brief: nat, choice: Choice, foldBoth: bool, accept: bool)
    requires Answered(s, t, brief, choice, foldBoth, accept)
    ensures AnswersPending(s.actions, t.actions, brief, choice, foldBoth, accept)
    ensures ChosenRows(s.actions, brief, choice, foldBoth, |s.actions|) == Changed(s.actions, t.actions)
  {
  }

  lemma AnswerNext(s: Sys, here: Sys, next: Sys, brief: nat, choice: Choice, foldBoth: bool, accept: bool, i: nat)
    requires AnsweredTo(s, here, brief, choice, foldBoth, accept, i) && i < |s.actions|
    requires if Chosen(s.actions[i], brief, choice, foldBoth) then AnswersOne(here, next, i, accept) else next == here
    ensures AnsweredTo(s, next, brief, choice, foldBoth, accept, i + 1)
  {
  }

  lemma RespondAnswersOne(s: Sys, i: nat, accept: bool)
    requires i < |s.actions|
    ensures Enabled(s, Respond(i, accept)) && AnswersOne(s, Apply(s, Respond(i, accept)), i, accept)
  {
  }

  lemma AnswersAgree(s: Sys, t: Sys, u: Sys, brief: nat, choice: Choice, foldBoth: bool, accept: bool, n: nat)
    requires AnsweredTo(s, t, brief, choice, foldBoth, accept, n) && AnsweredTo(s, u, brief, choice, foldBoth, accept, n)
    ensures t == u
  {
    assert t.actions == u.actions && t.accepted == u.accepted;
  }

  /** `here` has the first i rows answered. */
  lemma {:induction false} AnswersFrom(s: Sys, t: Sys, here: Sys, brief: nat, choice: Choice, foldBoth: bool, accept: bool, i: nat)
    returns (steps: seq<Step>)
    requires Answered(s, t, brief, choice, foldBoth, accept) && i <= |s.actions|
    requires AnsweredTo(s, here, brief, choice, foldBoth, accept, i)
    ensures Runs(here, steps, t)
    decreases |s.actions| - i
  {
    if i == |s.actions| {
      AnswersAgree(s, t, here, brief, choice, foldBoth, accept, i);
      steps := [];
    } else {
      if Chosen(s.actions[i], brief, choice, foldBoth) {
        var next := Apply(here, Respond(i, accept));
        RespondAnswersOne(here, i, accept);
        AnswerNext(s, here, next, brief, choice, foldBoth, accept, i);
        steps := AnswersFrom(s, t, next, brief, choice, foldBoth, accept, i + 1);
        Prepend(here, Respond(i, accept), steps, t);
        steps := [Respond(i, accept)] + steps;
      } else {
        AnswerNext(s, here, here, brief, choice, foldBoth, accept, i);
        steps := AnswersFrom(s, t, here, brief, choice, foldBoth, accept, i + 1);
      }
    }
  }

  // ----- what an operation may touch -----

  /** Job j may change its phase; nothing else in the tables or the history changes. */
  ghost predicate OnlyPhase(s: Sys, t: Sys, j: nat) {
    && j < |s.jobs| == |t.jobs| && t.jobs[j] == s.jobs[j].(phase := t.jobs[j].phase)
    && (forall i | 0 <= i < |s.jobs| && i != j :: t.jobs[i] == s.jobs[i])
    && t.briefs == s.briefs && t.actions == s.actions && t.handler == s.handler
    && t.accepted == s.accepted && t.interruptions == s.interruptions && t.leases == s.leases
  }

  /** Action i keeps what it is about; no other action and no table but the actions changes. */
  ghost predicate OnlyAction(s: Sys, t: Sys, i: nat) {
    && i < |s.actions| == |t.actions| && SameIdentity(s.actions[i], t.actions[i])
    && (forall k | 0 <= k < |s.actions| && k != i :: t.actions[k] == s.actions[k])
    && t.briefs == s.briefs && t.jobs == s.jobs && t.handler == s.handler
    && t.interruptions == s.interruptions && t.leases == s.leases
  }

  /** What holds in every run keeps holding. */
  ghost predicate KeepsPromises(s: Sys, t: Sys) {
    && (Traceable(s) ==> Traceable(t))
    && (InOrder(s) ==> InOrder(t))
    && (Counted(s) ==> Counted(t))
  }

  lemma StepKeepsPromises(s: Sys, step: Step)
    requires Enabled(s, step)
    ensures KeepsPromises(s, Apply(s, step)) && Runs(s, [step], Apply(s, step))
  {
    RunsOne(s, step);
    if Traceable(s) {
      StepKeepsTrace(s, step);
    }
    if InOrder(s) {
      StepKeepsOrder(s, step);
    }
    if Counted(s) {
      RunKeepsCount(s, [step], Apply(s, step));
    }
  }

  lemma OneStepIs(s: Sys, step: Step, t: Sys)
    requires Runs(s, [step], t)
    ensures Enabled(s, step) && t == Apply(s, step)
  {
    assert [step][1..] == [];
  }

  // ----- the operations -----

  class Database {
    var s: Sys

    constructor ()
      ensures s == EMPTY
    {
      s := EMPTY;
    }

    /** lease_one: the oldest queued job, if there is one. */
    method LeaseOne(w: nat, now: int) returns (job: Option<nat>)
      requires w !in s.workers
      modifies this
      ensures job.None? <==> forall i | 0 <= i < |old(s).jobs| :: !old(s).jobs[i].phase.Queued?
      ensures job.None? ==> s == old(s)
      ensures job.Some? ==> Enabled(old(s), Lease(w, now)) && s == Apply(old(s), Lease(w, now)) && s.workers[w] == Leased(job.value)
      ensures job.Some? ==> && job.value < |old(s).jobs| && old(s).jobs[job.value].phase == Queued
                            && (forall i | 0 <= i < job.value :: old(s).jobs[i].phase != Queued)
                            && s.jobs == old(s).jobs[job.value := old(s).jobs[job.value].(phase := Running(now))]
                            && s.leases == old(s).leases + [job.value]
    {
      var i := 0;
      while i < |s.jobs| && !s.jobs[i].phase.Queued?
        invariant i <= |s.jobs|
        invariant forall k | 0 <= k < i :: !s.jobs[k].phase.Queued?
        invariant FirstQueued(s.jobs, i) == FirstQueued(s.jobs, 0)
      {
        i := i + 1;
      }
      if i == |s.jobs| {
        return None;
      }
      s := s.(jobs := s.jobs[i := s.jobs[i].(phase := Running(now))], workers := s.workers[w := Leased(i)], leases := s.leases + [i]);
      return Some(i);
    }

    /** sweep_stale_leases */
    method SweepStaleLeases(now: int, maxAge: int) returns (n: nat)
      modifies this
      ensures s == Apply(old(s), Sweep(now, maxAge))
      ensures s == old(s).(jobs := s.jobs) && |s.jobs| == |old(s).jobs|
      ensures forall i | 0 <= i < |s.jobs| :: s.jobs[i] ==
                if old(s).jobs[i].phase.Running? && old(s).jobs[i].phase.started < now - maxAge
                then old(s).jobs[i].(phase := Error) else old(s).jobs[i]
      ensures n == |set i: nat | i < |old(s).jobs| && old(s).jobs[i].phase.Running? && old(s).jobs[i].phase.started < now - maxAge|
    {
      n := 0;
      ghost var stale: set<nat> := {};
      for i := 0 to |s.jobs|
        invariant |s.jobs| == |old(s).jobs| && s == old(s).(jobs := s.jobs)
        invariant forall k | 0 <= k < i :: s.jobs[k] == SweepOne(old(s).jobs[k], now, maxAge)
        invariant forall k | i <= k < |s.jobs| :: s.jobs[k] == old(s).jobs[k]
        invariant stale == set k: nat | k < i && old(s).jobs[k].phase.Running? && old(s).jobs[k].phase.started < now - maxAge
        invariant n == |stale|
      {
        var j := s.jobs[i];
        if j.phase.Running? && j.phase.started < now - maxAge {
          s := s.(jobs := s.jobs[i := j.(phase := Error)]);
          n := n + 1;
          stale := stale + {i};
        }
      }
      assert s.jobs == Apply(old(s), Sweep(now, maxAge)).jobs;
    }

    /** expire_lapsed_actions */
    method ExpireLapsedActions(now: int) returns (n: nat)
      modifies this
      ensures s == Apply(old(s), Expire(now))
      ensures s == old(s).(actions := s.actions) && |s.actions| == |old(s).actions|
      ensures forall i | 0 <= i < |s.actions| :: s.actions[i] ==
                if old(s).actions[i].state == Pending && old(s).actions[i].expires < now
                then old(s).actions[i].(state := Expired) else old(s).actions[i]
      ensures n == |set i: nat | i < |old(s).actions| && old(s).actions[i].state == Pending && old(s).actions[i].expires < now|
    {
      n := 0;
      ghost var lapsed: set<nat> := {};
      for i := 0 to |s.actions|
        invariant |s.actions| == |old(s).actions| && s == old(s).(actions := s.actions)
        invariant forall k | 0 <= k < i :: s.actions[k] == ExpireOne(old(s).actions[k], now)
        invariant forall k | i <= k < |s.actions| :: s.actions[k] == old(s).actions[k]
        invariant lapsed == set k: nat | k < i && old(s).actions[k].state == Pending && old(s).actions[k].expires < now
        invariant n == |lapsed|
      {
        var a := s.actions[i];
        if a.state.Pending? && a.expires < now {
          s := s.(actions := s.actions[i := a.(state := Expired)]);
          n := n + 1;
          lapsed := lapsed + {i};
        }
      }
      assert s.actions == Apply(old(s), Expire(now)).actions;
    }

    /** update_action_state: the row gets the answer whatever its state was by then, and acceptance is on record. */
    method UpdateActionState(i: nat, accept: bool)
      requires i < |s.actions|
      modifies this
      ensures AnswersOne(old(s), s, i, accept)
      ensures KeepsPromises(old(s), s) && Runs(old(s), [Respond(i, accept)], s)
    {
      StepKeepsPromises(s, Respond(i, accept));
      s := s.(actions := s.actions[i := s.actions[i].(state := if accept then Accepted else Declined)]);
      if accept {
        s := s.(accepted := s.accepted + {i});
      }
    }

    /** _transition of `forge alert`, and _apply_run_full_study of the bot: every chosen pending study is answered. */
    method Transition(brief: nat, choice: Choice, foldBoth: bool, accept: bool) returns (n: nat)
      modifies this
      ensures Answered(old(s), s, brief, choice, foldBoth, accept)
      ensures AnswersPending(old(s).actions, s.actions, brief, choice, foldBoth, accept) && n == |Changed(old(s).actions, s.actions)|
    {
      ghost var before := s;
      var rows := s.actions;
      n := 0;
      for i := 0 to |rows|
        invariant AnsweredTo(before, s, brief, choice, foldBoth, accept, i)
        invariant n == |ChosenRows(rows, brief, choice, foldBoth, i)|
      {
        ghost var here := s;
        if Chosen(rows[i], brief, choice, foldBoth) {
          UpdateActionState(i, accept);
          n := n + 1;
        }
        OneRowMore(rows, brief, choice, foldBoth, i);
        AnswerNext(before, here, s, brief, choice, foldBoth, accept, i);
      }
      AnswersMean(before, s, brief, choice, foldBoth, accept);
    }

    /**
     _dispatch_one of one fetched row, undisturbed; `result` is what a backtest or
     refinement gave. A study with an event and a ticker gets one new job, queued last,
     that carries its identity; any other study, and a backtest of anything but a full
     brief with runs, is marked as failed. A backtest or refinement that raised leaves
     everything as it was.
     */
    method DispatchOne(i: nat, result: Option<nat>)
      requires i < |s.actions| && s.actions[i].brief < |s.briefs|
      modifies this
      ensures s == Dispatched(old(s), i, result)
      ensures |s.actions| == |old(s).actions| && forall k | 0 <= k < |s.actions| && k != i :: s.actions[k] == old(s).actions[k]
      ensures var a, brief := old(s).actions[i], old(s).briefs[old(s).actions[i].brief];
              match a.kind
              case Study =>
                if brief.event.Some? && a.ticker.Some? && a.ticker.value != ""
                then && s.jobs == old(s).jobs + [Job(brief.event.value, a.ticker.value, i, a.brief, Queued)]
                     && s.actions[i] == a.(resultJob := Some(|old(s).jobs|)) && s.briefs == old(s).briefs
                     && JobsFor(s.jobs, i) == JobsFor(old(s).jobs, i) + 1
                else s.actions[i] == a.(failed := true) && s.jobs == old(s).jobs && s.briefs == old(s).briefs
              case Backtest =>
                && s.jobs == old(s).jobs && s.briefs == old(s).briefs
                && s.actions[i] == (if !(brief.mode == Full && brief.hasRuns) then a.(failed := true)
                                    else if result.None? then a
                                    else a.(resultBacktest := result, resultBrief := None))
              case Refine =>
                && s.jobs == old(s).jobs
                && (if result.None? then s.actions[i] == a && s.briefs == old(s).briefs
                    else && s.briefs == old(s).briefs + [Brief(Other, Some(a.brief), None, brief.scope, true)]
                         && s.actions[i] == a.(resultBacktest := None, resultBrief := Some(|old(s).briefs|)))
              case Unknown => s == old(s)
      ensures s == old(s).(jobs := s.jobs, actions := s.actions, briefs := s.briefs)
    {
      var a := s.actions[i];
      var brief := s.briefs[a.brief];
      match a.kind {
        case Backtest =>
          if !(brief.mode.Full? && brief.hasRuns) {
            s := s.(actions := s.actions[i := a.(failed := true)]);
          } else if result.Some? {
            s := s.(actions := s.actions[i := a.(resultBacktest := result, resultBrief := None)]);
          }
        case Refine =>
          if result.Some? {
            var refined := |s.briefs|;
            s := s.(briefs := s.briefs + [Brief(Other, Some(a.brief), None, brief.scope, true)]);
            s := s.(actions := s.actions[i := a.(resultBacktest := None, resultBrief := Some(refined))]);
          }
        case Study =>
          if brief.event.None? || a.ticker.None? || a.ticker.value == "" {
            s := s.(actions := s.actions[i := a.(failed := true)]);
          } else {
            var job := |s.jobs|;
            JobsForMore(s.jobs, Job(brief.event.value, a.ticker.value, i, a.brief, Queued), i);
            s := s.(jobs := s.jobs + [Job(brief.event.value, a.ticker.value, i, a.brief, Queued)]);
            s := s.(actions := s.actions[i := a.(resultJob := Some(job))]);
          }
        case Unknown =>
      }
    }

    /** tick: lapsed actions expire, then the accepted undispatched ones are handled in order; a run of the protocol. */
    method Tick(now: int, results: seq<Option<nat>>) returns (ghost steps: seq<Step>)
      requires Anchored(s) && s.handler.Idle? && |results| == |Accepting(s.actions, |s.actions|)|
      modifies this
      ensures Anchored(Apply(old(s), Expire(now))) && RowsIn(Apply(old(s), Expire(now)), Accepting(old(s).actions, |old(s).actions|))
      ensures s == Ticked(Apply(old(s), Expire(now)), Accepting(old(s).actions, |old(s).actions|), results)
      ensures Runs(old(s), steps, s)
    {
      var lapsed := ExpireLapsedActions(now);
      ghost var expired := s;
      AcceptingExpired(old(s), now, |s.actions|);
      var rows := FetchAcceptedUndispatched();
      steps := UndisturbedTick(expired, rows, results);
      Prepend(old(s), Expire(now), steps, Ticked(expired, rows, results));
      steps := [Expire(now)] + steps;
      var rest, answers := rows, results;
      while rest != []
        invariant |answers| == |rest| && Anchored(s) && RowsIn(s, rest)
        invariant Ticked(s, rest, answers) == Ticked(expired, rows, results)
        decreases |rest|
      {
        DispatchedMeans(s, rest[0], answers[0]);
        DispatchOne(rest[0], answers[0]);
        rest, answers := rest[1..], answers[1..];
      }
    }

    /** fetch_accepted_undispatched */
    method FetchAcceptedUndispatched() returns (rows: seq<nat>)
      ensures rows == Accepting(s.actions, |s.actions|)
    {
      rows := [];
      for i := 0 to |s.actions|
        invariant rows == Accepting(s.actions, i)
      {
        if Undispatched(s.actions[i]) {
          rows := rows + [i];
        }
      }
    }

    /** compose_event_alert, as far as its brief: one new brief, the full study of the job's parent, event and ticker. */
    method ComposeEventAlert(w: nat, hasRuns: bool)
      requires Enabled(s, Compose(w, hasRuns))
      modifies this
      ensures |s.briefs| == |old(s).briefs| + 1 && old(s).briefs <= s.briefs
      ensures var job := old(s).jobs[old(s).workers[w].job]; FullFor(s, |old(s).briefs|, job.parent, job.event, job.ticker)
      ensures s.briefs[|old(s).briefs|].hasRuns == hasRuns
      ensures s.actions == old(s).actions && s.jobs == old(s).jobs && s.handler == old(s).handler
      ensures w in s.workers && s.workers[w] == Composed(old(s).workers[w].job, |old(s).briefs|)
      ensures KeepsPromises(old(s), s) && Runs(old(s), [Compose(w, hasRuns)], s)
    {
      StepKeepsPromises(s, Compose(w, hasRuns));
      var id := s.workers[w].job;
      var job, brief := s.jobs[id], |s.briefs|;
      s := s.(briefs := s.briefs + [Brief(Full, Some(job.parent), Some(job.event), job.ticker, hasRuns)]);
      s := s.(workers := s.workers[w := Composed(id, brief)]);
    }

    /**
     mark_action_done of dispatch_event_alert: the action the payload names gets the
     worker's brief as its result and stays dispatched; traceable tables say which brief that is.
     */
    method MarkActionDone(w: nat)
      requires Enabled(s, LinkAction(w))
      modifies this
      ensures var i := old(s).jobs[old(s).workers[w].job].action;
              && OnlyAction(old(s), s, i) && s.accepted == old(s).accepted
              && s.actions[i] == old(s).actions[i].(resultBacktest := None, resultBrief := Some(old(s).workers[w].brief))
              && (Traceable(old(s)) ==> ActionLinked(s, s.actions[i]))
      ensures KeepsPromises(old(s), s) && Runs(old(s), [LinkAction(w)], s)
    {
      StepKeepsPromises(s, LinkAction(w));
      var k := s.workers[w];
      var i := s.jobs[k.job].action;
      s := s.(actions := s.actions[i := s.actions[i].(resultBacktest := None, resultBrief := Some(k.brief))]);
      s := s.(workers := s.workers[w := Linked(k.job, k.brief)]);
    }

    /**
     mark_done: the worker's job ends as done with the worker's brief whatever its phase
     was by then, an error included; traceable tables say which brief that is.
     */
    method MarkDone(w: nat)
      requires Enabled(s, Finish(w))
      modifies this
      ensures var id := old(s).workers[w].job;
              && OnlyPhase(old(s), s, id) && IsDone(s, id) && s.jobs[id].phase.brief == old(s).workers[w].brief
              && (Traceable(old(s)) ==> JobLinked(s, s.jobs[id]))
      ensures w !in s.workers && forall v | v != w :: v in s.workers <==> v in old(s).workers
      ensures KeepsPromises(old(s), s) && Runs(old(s), [Finish(w)], s)
    {
      StepKeepsPromises(s, Finish(w));
      var k := s.workers[w];
      s := s.(jobs := s.jobs[k.job := s.jobs[k.job].(phase := Done(k.brief))], workers := s.workers - {w});
    }

    /**
     mark_error: the worker's job ends as an error whatever its phase was by then, and,
     if no other worker holds it, for good.
     */
    method MarkError(w: nat)
      requires Enabled(s, Fail(w))
      modifies this
      ensures var id := old(s).workers[w].job;
              && OnlyPhase(old(s), s, id) && s.jobs[id].phase == Error
              && ((forall v | v in old(s).workers && v != w :: old(s).workers[v].job != id) ==> !Held(s, id))
      ensures w !in s.workers && forall v | v != w :: v in s.workers <==> v in old(s).workers
      ensures KeepsPromises(old(s), s) && Runs(old(s), [Fail(w)], s)
    {
      StepKeepsPromises(s, Fail(w));
      var job := s.workers[w].job;
      s := s.(jobs := s.jobs[job := s.jobs[job].(phase := Error)], workers := s.workers - {w});
    }

    /** The exception path of drain_one: before the study's brief, or after it. */
    method EndBadly(w: nat, ghost s0: Sys, ghost now: int, study: Study)
      requires !study.Succeeds? && CanDrain(s0, w)
      requires s == if study.Breaks? then LeasedForm(s0, w, now) else ComposedForm(s0, w, now, study.hasRuns)
      modifies this
      ensures s == Drained(s0, w, now, study)
    {
      ghost var before := s;
      if study.Breaks? {
        FailStep(s0, w, now);
      } else {
        FailLaterStep(s0, w, now, study.hasRuns);
      }
      MarkError(w);
      OneStepIs(before, Fail(w), s);
    }

    /** The rest of drain_one after the study's brief: its action is linked, and the job is done. */
    method EndWell(w: nat, ghost s0: Sys, ghost now: int, hasRuns: bool)
      requires CanDrain(s0, w) && s == ComposedForm(s0, w, now, hasRuns)
      modifies this
      ensures s == Drained(s0, w, now, Succeeds(hasRuns))
    {
      ghost var composed := s;
      LinkStep(s0, w, now, hasRuns);
      MarkActionDone(w);
      OneStepIs(composed, LinkAction(w), s);
      FinishStep(s0, w, now, hasRuns);
      MarkDone(w);
      OneStepIs(LinkedForm(s0, w, now, hasRuns), Finish(w), s);
    }

    /** drain_one, with its budget guard letting it run: one job from its lease to done or error. */
    method DrainOne(w: nat, now: int, study: Study) returns (ran: bool)
      requires JobsKnown(s) && w !in s.workers
      modifies this
      ensures ran <==> exists i :: 0 <= i < |old(s).jobs| && old(s).jobs[i].phase.Queued?
      ensures if ran then CanDrain(old(s), w) && s == Drained(old(s), w, now, study) else s == old(s)
    {
      ghost var before := s;
      var job := LeaseOne(w, now);
      if job.None? {
        return false;
      }
      LeaseStep(before, w, now);
      if !study.Breaks? {
        ComposeStep(before, w, now, study.hasRuns);
        ComposeEventAlert(w, study.hasRuns);
        OneStepIs(LeasedForm(before, w, now), Compose(w, study.hasRuns), s);
      }
      if study.Succeeds? {
        EndWell(w, before, now, study.hasRuns);
      } else {
        EndBadly(w, before, now, study);
      }
      return true;
    }
  }
}
