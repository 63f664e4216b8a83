/**
 The approval gate as a protocol: light alerts and their pending study actions, answers,
 expiry, the action handler (tradingagents/orchestrator/action_handler.py), the job queue
 (queue_store.py), the workers (worker.py, dispatch.py), sweeps and crashes, in any
 interleaving. One step is one committed transaction.
 */
module ApprovalPipeline {
  import opened Outcomes

  // ----- the tables; row ids are positions -----

  /** Light alert, full study (mode event_alert), or any other brief. */
  datatype Mode = Light | Full | Other

  datatype Brief = Brief(mode: Mode, parent: Option<nat>, event: Option<nat>, scope: string, hasRuns: bool)

  datatype Kind = Study | Backtest | Refine | Unknown

  datatype Answer = Pending | Accepted | Declined | Expired

  /** The parameters of an action may lack a ticker. */
  datatype Action = Action(brief: nat, kind: Kind, ticker: Option<string>, state: Answer, expires: int,
                           resultJob: Option<nat>, resultBrief: Option<nat>, resultBacktest: Option<nat>, failed: bool)

  datatype Phase = Queued | Running(started: int) | Done(brief: nat) | Error

  /** An event_alert job with its payload. */
  datatype Job = Job(event: nat, ticker: string, action: nat, parent: nat, phase: Phase)

  // ----- the actors' program counters -----

  /** A drain thread: it leased a job, stored its full brief, or also linked its action. */
  datatype Work = Leased(job: nat) | Composed(job: nat, brief: nat) | Linked(job: nat, brief: nat)

  /** The action handler: idle, going through fetched rows, or between the two commits of an enqueue. */
  datatype Handler = Idle | Ticking(rows: seq<nat>) | Inserted(action: nat, job: nat, rest: seq<nat>)

  /**
   `accepted` holds the actions that were ever accepted, `interruptions` how often the
   handler stopped between the insert and the mark for an action, `leases` the leased
   jobs in order: these three record the history.
   */
  datatype Sys = Sys(briefs: seq<Brief>, actions: seq<Action>, jobs: seq<Job>, workers: map<nat, Work>, handler: Handler,
                     accepted: set<nat>, interruptions: map<nat, nat>, leases: seq<nat>)

  const EMPTY := Sys([], [], [], map[], Idle, {}, map[], [])

  datatype Step =
    | AddLight(event: nat)
    | AddStudy(brief: nat, ticker: Option<string>, expires: int)
    | AddBrief(content: Brief)
    | AddAction(brief: nat, kind: Kind, ticker: Option<string>, expires: int)
    | Respond(action: nat, accept: bool)              // CLI or bot: one row, whatever its state by now
    | Expire(now: int)
    | Fetch                                           // the handler reads the accepted undispatched rows
    | Handle(result: Option<nat>)                     // the first row; what a backtest or refinement gave
    | RowFails                                        // it raises before it commits anything
    | MarkDispatched                                  // the second commit of an enqueue
    | MarkFails                                       // it raises; the handler goes on with the next row
    | EndTick
    | HandlerCrash
    | Lease(w: nat, now: int)
    | Compose(w: nat, hasRuns: bool)
    | LinkAction(w: nat)
    | Finish(w: nat)
    | Fail(w: nat)                                    // an exception reaches drain_one
    | Vanish(w: nat)                                  // the process dies
    | Sweep(now: int, maxAge: int)

  // ----- reading and writing the tables -----

  predicate Undispatched(a: Action) {
    a.state.Accepted? && a.resultBacktest.None? && a.resultBrief.None? && a.resultJob.None? && !a.failed
  }

  /** fetch_accepted_undispatched, by action id */
  function Accepting(actions: seq<Action>, n: nat): (rows: seq<nat>)
    requires n <= |actions|
    ensures forall k | 0 <= k < |rows| :: rows[k] < n
  {
    if n == 0 then [] else Accepting(actions, n - 1) + if Undispatched(actions[n - 1]) then [n - 1] else []
  }

  function ExpireOne(a: Action, now: int): Action {
    if a.state.Pending? && a.expires < now then a.(state := Expired) else a
  }

  /** The oldest queued job from i on, or the number of jobs. */
  function FirstQueued(jobs: seq<Job>, i: nat): (r: nat)
    requires i <= |jobs|
    ensures i <= r <= |jobs|
    ensures r < |jobs| ==> jobs[r].phase.Queued?
    ensures forall k | i <= k < r :: !jobs[k].phase.Queued?
    decreases |jobs| - i
  {
    if i == |jobs| || jobs[i].phase.Queued? then i else FirstQueued(jobs, i + 1)
  }

  function SweepOne(j: Job, now: int, maxAge: int): Job {
    if j.phase.Running? && j.phase.started < now - maxAge then j.(phase := Error) else j
  }

  predicate Backtestable(b: Brief) {
    b.mode.Full? && b.hasRuns
  }

  predicate WellLinked(s: Sys, a: nat)
    requires a < |s.actions| && s.actions[a].brief < |s.briefs|
  {
    s.briefs[s.actions[a].brief].event.Some? && s.actions[a].ticker.Some? && s.actions[a].ticker.value != ""
  }

  function SetAction(s: Sys, i: nat, a: Action): Sys
    requires i < |s.actions|
  {
    s.(actions := s.actions[i := a])
  }

  function SetPhase(s: Sys, i: nat, phase: Phase): Sys
    requires i < |s.jobs|
  {
    s.(jobs := s.jobs[i := s.jobs[i].(phase := phase)])
  }

  /** The first commit of an enqueue. */
  function Enqueue(s: Sys, i: nat): Sys
    requires i < |s.actions| && s.actions[i].brief < |s.briefs| && WellLinked(s, i)
  {
    var a := s.actions[i];
    s.(jobs := s.jobs + [Job(s.briefs[a.brief].event.value, a.ticker.value, i, a.brief, Queued)])
  }

  /** _dispatch_one on a row that is not a well-linked study. */
  function Settle(s: Sys, i: nat, result: Option<nat>): Sys
    requires i < |s.actions| && s.actions[i].brief < |s.briefs|
  {
    var a := s.actions[i];
    match a.kind
    case Study => SetAction(s, i, a.(failed := true))
    case Backtest =>
      if !Backtestable(s.briefs[a.brief]) then SetAction(s, i, a.(failed := true))
      else if result.None? then s
      else SetAction(s, i, a.(resultBacktest := result, resultBrief := None))
    case Refine =>
      if result.None? then s
      else
        var refined := s.(briefs := s.briefs + [Brief(Other, Some(a.brief), None, s.briefs[a.brief].scope, true)]);
        SetAction(refined, i, a.(resultBacktest := None, resultBrief := Some(|s.briefs|)))
    case Unknown => s
  }

  function Interrupted(s: Sys, a: nat): nat {
    if a in s.interruptions then s.interruptions[a] else 0
  }

  function Interrupt(s: Sys): Sys {
    if s.handler.Inserted?
    then s.(interruptions := s.interruptions[s.handler.action := Interrupted(s, s.handler.action) + 1])
    else s
  }

  predicate Handles(s: Sys) {
    && s.handler.Ticking? && s.handler.rows != []
    && s.handler.rows[0] < |s.actions| && s.actions[s.handler.rows[0]].brief < |s.briefs|
  }

  predicate Works(s: Sys, w: nat) {
    w in s.workers && s.workers[w].job < |s.jobs|
  }

  predicate Enabled(s: Sys, step: Step) {
    match step
    case AddLight(_) => true
    case AddStudy(brief, _, _) => brief < |s.briefs| && s.briefs[brief].mode.Light?
    case AddBrief(content) => content.mode.Other?
    case AddAction(brief, kind, _, _) => brief < |s.briefs| && !kind.Study?
    case Respond(action, _) => action < |s.actions|
    case Expire(_) => true
    case Fetch => s.handler.Idle?
    case Handle(_) => Handles(s)
    case RowFails => s.handler.Ticking? && s.handler.rows != []
    case MarkDispatched => s.handler.Inserted? && s.handler.action < |s.actions|
    case MarkFails => s.handler.Inserted?
    case EndTick => s.handler == Ticking([])
    case HandlerCrash => true
    case Lease(w, _) => w !in s.workers && FirstQueued(s.jobs, 0) < |s.jobs|
    case Compose(w, _) => Works(s, w) && s.workers[w].Leased?
    case LinkAction(w) => Works(s, w) && s.workers[w].Composed? && s.jobs[s.workers[w].job].action < |s.actions|
    case Finish(w) => Works(s, w) && s.workers[w].Linked?
    case Fail(w) => Works(s, w)
    case Vanish(w) => w in s.workers
    case Sweep(_, _) => true
  }

  function Apply(s: Sys, step: Step): Sys
    requires Enabled(s, step)
  {
    match step
    case AddLight(event) => s.(briefs := s.briefs + [Brief(Light, None, Some(event), "", false)])
    case AddStudy(brief, ticker, expires) =>
      s.(actions := s.actions + [Action(brief, Study, ticker, Pending, expires, None, None, None, false)])
    case AddBrief(content) => s.(briefs := s.briefs + [content])
    case AddAction(brief, kind, ticker, expires) =>
      s.(actions := s.actions + [Action(brief, kind, ticker, Pending, expires, None, None, None, false)])
    case Respond(i, accept) =>
      var t := SetAction(s, i, s.actions[i].(state := if accept then Accepted else Declined));
      if accept then t.(accepted := s.accepted + {i}) else t
    case Expire(now) =>
      s.(actions := seq(|s.actions|, i requires 0 <= i < |s.actions| => ExpireOne(s.actions[i], now)))
    case Fetch => s.(handler := Ticking(Accepting(s.actions, |s.actions|)))
    case Handle(result) =>
      var i, rest := s.handler.rows[0], s.handler.rows[1..];
      if s.actions[i].kind.Study? && WellLinked(s, i) then Enqueue(s, i).(handler := Inserted(i, |s.jobs|, rest))
      else Settle(s, i, result).(handler := Ticking(rest))
    case RowFails => s.(handler := Ticking(s.handler.rows[1..]))
    case MarkDispatched =>
      var Inserted(i, job, rest) := s.handler;
      SetAction(s, i, s.actions[i].(resultJob := Some(job))).(handler := Ticking(rest))
    case MarkFails => Interrupt(s).(handler := Ticking(s.handler.rest))
    case EndTick => s.(handler := Idle)
    case HandlerCrash => Interrupt(s).(handler := Idle)
    case Lease(w, now) =>
      var j := FirstQueued(s.jobs, 0);
      SetPhase(s, j, Running(now)).(workers := s.workers[w := Leased(j)], leases := s.leases + [j])
    case Compose(w, hasRuns) =>
      var j := s.jobs[s.workers[w].job];
      s.(briefs := s.briefs + [Brief(Full, Some(j.parent), Some(j.event), j.ticker, hasRuns)],
         workers := s.workers[w := Composed(s.workers[w].job, |s.briefs|)])
    case LinkAction(w) =>
      var Composed(job, brief) := s.workers[w];
      var i := s.jobs[job].action;
      SetAction(s, i, s.actions[i].(resultBacktest := None, resultBrief := Some(brief)))
      .(workers := s.workers[w := Linked(job, brief)])
    case Finish(w) => SetPhase(s, s.workers[w].job, Done(s.workers[w].brief)).(workers := s.workers - {w})
    case Fail(w) => SetPhase(s, s.workers[w].job, Error).(workers := s.workers - {w})
    case Vanish(w) => s.(workers := s.workers - {w})
    case Sweep(now, maxAge) =>
      s.(jobs := seq(|s.jobs|, i requires 0 <= i < |s.jobs| => SweepOne(s.jobs[i], now, maxAge)))
  }

  ghost predicate Runs(s: Sys, steps: seq<Step>, t: Sys)
    decreases steps
  {
    if steps == [] then t == s else Enabled(s, steps[0]) && Runs(Apply(s, steps[0]), steps[1..], t)
  }

  // ----- every job and every full brief goes back to an accepted study -----

  predicate SameIdentity(a: Action, b: Action) {
    b.brief == a.brief && b.kind == a.kind && b.ticker == a.ticker
  }

  /** Briefs do not change, actions keep what they are about, acceptance is remembered. */
  ghost predicate Extends(s: Sys, t: Sys) {
    && s.briefs <= t.briefs && s.accepted <= t.accepted && |s.actions| <= |t.actions|
    && forall i | 0 <= i < |s.actions| :: SameIdentity(s.actions[i], t.actions[i])
  }

  lemma SettleExtends(s: Sys, i: nat, result: Option<nat>)
    requires i < |s.actions| && s.actions[i].brief < |s.briefs|
    ensures Extends(s, Settle(s, i, result)) && Settle(s, i, result).jobs == s.jobs
  {
  }

  lemma HandleExtends(s: Sys, step: Step)
    requires Enabled(s, step) && step.Handle?
    ensures Extends(s, Apply(s, step)) && KeepsPayloads(s, Apply(s, step))
  {
    SettleExtends(s, s.handler.rows[0], step.result);
  }

  lemma StepExtends(s: Sys, step: Step)
    requires Enabled(s, step)
    ensures Extends(s, Apply(s, step)) && KeepsPayloads(s, Apply(s, step))
  {
    if step.Handle? {
      HandleExtends(s, step);
    } else {
      OtherStepExtends(s, step);
    }
  }

  lemma OtherStepExtends(s: Sys, step: Step)
    requires Enabled(s, step) && !step.Handle?
    ensures Extends(s, Apply(s, step)) && KeepsPayloads(s, Apply(s, step))
  {
  }

  /** Jobs keep their payloads. */
  ghost predicate KeepsPayloads(s: Sys, t: Sys) {
    && |s.jobs| <= |t.jobs|
    && forall i | 0 <= i < |s.jobs| :: t.jobs[i] == s.jobs[i].(phase := t.jobs[i].phase)
  }

  /** The brief is the full study of this parent, event and ticker. */
  predicate FullFor(s: Sys, b: nat, parent: nat, event: nat, ticker: string) {
    && b < |s.briefs|
    && s.briefs[b].mode.Full? && s.briefs[b].parent == Some(parent) && s.briefs[b].event == Some(event)
    && s.briefs[b].scope == ticker
  }

  /** A study action hangs on a light brief; its result is the full study of that brief, event and ticker. */
  predicate ActionLinked(s: Sys, a: Action) {
    && a.brief < |s.briefs|
    && (a.kind.Study? ==>
          && s.briefs[a.brief].mode.Light? && s.briefs[a.brief].event.Some?
          && (a.resultBrief.Some? ==>
                && a.ticker.Some?
                && FullFor(s, a.resultBrief.value, a.brief, s.briefs[a.brief].event.value, a.ticker.value)))
  }

  /** The job's payload names a study action that was accepted, with its ticker, its light brief and that brief's event. */
  predicate JobLinked(s: Sys, j: Job) {
    && j.action < |s.actions| && j.action in s.accepted && s.actions[j.action].kind.Study?
    && s.actions[j.action].ticker == Some(j.ticker) && s.actions[j.action].brief == j.parent
    && j.parent < |s.briefs| && s.briefs[j.parent].mode.Light? && s.briefs[j.parent].event == Some(j.event)
    && (j.phase.Done? ==> FullFor(s, j.phase.brief, j.parent, j.event, j.ticker))
  }

  predicate WorkLinked(s: Sys, k: Work) {
    && k.job < |s.jobs|
    && (!k.Leased? ==> FullFor(s, k.brief, s.jobs[k.job].parent, s.jobs[k.job].event, s.jobs[k.job].ticker))
  }

  ghost predicate RowsAccepted(s: Sys, rows: seq<nat>) {
    forall i | i in rows :: i < |s.actions| && i in s.accepted
  }

  ghost predicate Traceable(s: Sys) {
    && (forall i | 0 <= i < |s.briefs| :: s.briefs[i].mode.Light? ==> s.briefs[i].event.Some?)
    && (forall i | 0 <= i < |s.actions| :: ActionLinked(s, s.actions[i]) && (s.actions[i].state.Accepted? ==> i in s.accepted))
    && (forall i | 0 <= i < |s.jobs| :: JobLinked(s, s.jobs[i]))
    && (forall w | w in s.workers :: WorkLinked(s, s.workers[w]))
    && (s.handler.Ticking? ==> RowsAccepted(s, s.handler.rows))
    && (s.handler.Inserted? ==> RowsAccepted(s, s.handler.rest) && s.handler.action < |s.actions|)
  }

  /** Settling a row changes no study's result, and no answer. */
  lemma SettleMoves(s: Sys, k: nat, result: Option<nat>, i: nat)
    requires k < |s.actions| && s.actions[k].brief < |s.briefs| && i < |s.actions|
    ensures var t := Settle(s, k, result);
            && i < |t.actions| && t.actions[i].state == s.actions[i].state && t.accepted == s.accepted
            && (t.actions[i].resultBrief == s.actions[i].resultBrief || !s.actions[i].kind.Study?)
  {
  }

  lemma HandleKeepsAction(s: Sys, step: Step, i: nat)
    requires Traceable(s) && Enabled(s, step) && step.Handle? && i < |Apply(s, step).actions|
    ensures ActionLinked(Apply(s, step), Apply(s, step).actions[i])
    ensures Apply(s, step).actions[i].state.Accepted? ==> i in Apply(s, step).accepted
  {
    HandleExtends(s, step);
    SettleExtends(s, s.handler.rows[0], step.result);
    SettleMoves(s, s.handler.rows[0], step.result, i);
    ActionStays(s, Apply(s, step), s.actions[i], Apply(s, step).actions[i]);
  }

  lemma LinkKeepsAction(s: Sys, w: nat, i: nat)
    requires Traceable(s) && Enabled(s, LinkAction(w)) && i < |s.actions|
    ensures ActionLinked(Apply(s, LinkAction(w)), Apply(s, LinkAction(w)).actions[i])
  {
  }

  lemma StepKeepsAction(s: Sys, step: Step, i: nat)
    requires Traceable(s) && Enabled(s, step) && i < |Apply(s, step).actions|
    ensures ActionLinked(Apply(s, step), Apply(s, step).actions[i])
    ensures Apply(s, step).actions[i].state.Accepted? ==> i in Apply(s, step).accepted
  {
    if step.Handle? {
      HandleKeepsAction(s, step, i);
    } else if step.LinkAction? {
      LinkKeepsAction(s, step.w, i);
    } else if i < |s.actions| {
      assert ActionLinked(s, s.actions[i]);
      OtherStepKeepsAction(s, step, i);
    }
  }

  /** Other steps leave an action's result, and accept it only by answering it. */
  lemma ActionMoves(s: Sys, step: Step, i: nat)
    requires Enabled(s, step) && !step.Handle? && !step.LinkAction? && i < |s.actions| && i < |Apply(s, step).actions|
    ensures Apply(s, step).actions[i].resultBrief == s.actions[i].resultBrief
    ensures Apply(s, step).actions[i].state.Accepted? ==> s.actions[i].state.Accepted? || i in Apply(s, step).accepted
  {
  }

  lemma ActionStays(s: Sys, t: Sys, a: Action, b: Action)
    requires ActionLinked(s, a) && Extends(s, t) && SameIdentity(a, b)
    requires b.resultBrief == a.resultBrief || !a.kind.Study?
    ensures ActionLinked(t, b)
  {
  }

  lemma OtherStepKeepsAction(s: Sys, step: Step, i: nat)
    requires Enabled(s, step) && !step.Handle? && !step.LinkAction? && i < |s.actions|
    requires ActionLinked(s, s.actions[i]) && (s.actions[i].state.Accepted? ==> i in s.accepted)
    ensures i < |Apply(s, step).actions| && ActionLinked(Apply(s, step), Apply(s, step).actions[i])
    ensures Apply(s, step).actions[i].state.Accepted? ==> i in Apply(s, step).accepted
  {
    StepExtends(s, step);
    ActionMoves(s, step, i);
    ActionStays(s, Apply(s, step), s.actions[i], Apply(s, step).actions[i]);
  }

  /** A job becomes done only when its worker finishes. */
  lemma PhaseMoves(s: Sys, step: Step, i: nat)
    requires Enabled(s, step) && i < |s.jobs| && i < |Apply(s, step).jobs|
    ensures var phase := Apply(s, step).jobs[i].phase;
            || phase == s.jobs[i].phase
            || !phase.Done?
            || (step.Finish? && s.workers[step.w].job == i && phase == Done(s.workers[step.w].brief))
  {
    if step.Handle? {
      SettleExtends(s, s.handler.rows[0], step.result);
    }
  }

  lemma JobStays(s: Sys, t: Sys, j: Job)
    requires JobLinked(s, j) && Extends(s, t)
    ensures JobLinked(t, j)
  {
  }

  lemma OldJobStays(s: Sys, step: Step, i: nat)
    requires Traceable(s) && Enabled(s, step) && i < |s.jobs| && i < |Apply(s, step).jobs|
    ensures JobLinked(Apply(s, step), Apply(s, step).jobs[i])
  {
    StepExtends(s, step);
    PhaseMoves(s, step, i);
    JobStays(s, Apply(s, step), s.jobs[i]);
    if step.Finish? {
      assert WorkLinked(s, s.workers[step.w]);
      WorkStays(s, Apply(s, step), s.workers[step.w]);
    }
  }

  lemma NewJobLinked(s: Sys, step: Step)
    requires Traceable(s) && Enabled(s, step) && |Apply(s, step).jobs| > |s.jobs|
    ensures JobLinked(Apply(s, step), Apply(s, step).jobs[|s.jobs|])
  {
    StepAddsJobs(s, step);
    var i := s.handler.rows[0];
    SettleExtends(s, i, step.result);
    assert i in s.handler.rows && ActionLinked(s, s.actions[i]);
  }

  /** What the step does to the handler. */
  lemma StepMovesHandler(s: Sys, step: Step)
    requires Enabled(s, step)
    ensures var h, k := s.handler, Apply(s, step).handler;
            match step
            case Fetch => k == Ticking(Accepting(s.actions, |s.actions|))
            case Handle(_) => k == Ticking(h.rows[1..]) || k == Inserted(h.rows[0], |s.jobs|, h.rows[1..])
            case RowFails => k == Ticking(h.rows[1..])
            case MarkDispatched => k == Ticking(h.rest)
            case MarkFails => k == Ticking(h.rest)
            case EndTick => k == Idle
            case HandlerCrash => k == Idle
            case _ => k == h
  {
  }

  /** A worker keeps its place, or takes one step with its job. */
  lemma StepMovesWorkers(s: Sys, step: Step, w: nat)
    requires Enabled(s, step) && w in Apply(s, step).workers
    ensures var t := Apply(s, step);
            || (w in s.workers && t.workers[w] == s.workers[w])
            || (t.workers[w].Leased? && t.workers[w].job < |s.jobs|)
            || (step.Compose? && t.workers[w] == Composed(s.workers[w].job, |s.briefs|) && Works(s, w))
            || (w in s.workers && s.workers[w].Composed? && t.workers[w] == Linked(s.workers[w].job, s.workers[w].brief))
  {
  }

  lemma WorkStays(s: Sys, t: Sys, k: Work)
    requires WorkLinked(s, k) && Extends(s, t) && KeepsPayloads(s, t)
    ensures WorkLinked(t, k)
  {
  }

  lemma StepKeepsWorker(s: Sys, step: Step, w: nat)
    requires Traceable(s) && Enabled(s, step) && w in Apply(s, step).workers
    ensures WorkLinked(Apply(s, step), Apply(s, step).workers[w])
  {
    var t := Apply(s, step);
    StepExtends(s, step);
    StepMovesWorkers(s, step, w);
    if w in s.workers && !step.Compose? {
      assert WorkLinked(s, s.workers[w]);
      WorkStays(s, t, s.workers[w]);
    } else if w in s.workers && t.workers[w] == s.workers[w] {
      assert WorkLinked(s, s.workers[w]);
      WorkStays(s, t, s.workers[w]);
    }
  }

  lemma {:induction false} AcceptingMeans(actions: seq<Action>, n: nat)
    requires n <= |actions|
    ensures forall i :: i in Accepting(actions, n) <==>
              && 0 <= i < n && actions[i].state == Accepted && !actions[i].failed
              && actions[i].resultJob == None && actions[i].resultBrief == None && actions[i].resultBacktest == None
    ensures forall i, j | 0 <= i < j < |Accepting(actions, n)| :: Accepting(actions, n)[i] < Accepting(actions, n)[j]
  {
    if n > 0 {
      var front := Accepting(actions, n - 1);
      AcceptingMeans(actions, n - 1);
      if Undispatched(actions[n - 1]) {
        LargerLast(front, n - 1);
      }
    }
  }

  lemma LargerLast(front: seq<nat>, last: nat)
    requires forall i | i in front :: i < last
    requires forall i, j | 0 <= i < j < |front| :: front[i] < front[j]
    ensures var s := front + [last];
            && (forall i, j | 0 <= i < j < |s| :: s[i] < s[j])
            && (forall i :: i in s <==> i in front || i == last)
  {
    assert forall i | 0 <= i < |front| :: front[i] in front;
  }

  lemma FetchedAreAccepted(s: Sys)
    requires Traceable(s)
    ensures RowsAccepted(s, Accepting(s.actions, |s.actions|))
  {
    AcceptingMeans(s.actions, |s.actions|);
    forall i | i in Accepting(s.actions, |s.actions|)
      ensures i < |s.actions| && i in s.accepted
    {
      assert ActionLinked(s, s.actions[i]);
    }
  }

  lemma RowsStay(s: Sys, t: Sys, rows: seq<nat>)
    requires RowsAccepted(s, rows) && Extends(s, t)
    ensures RowsAccepted(t, rows) && (rows != [] ==> RowsAccepted(t, rows[1..]) && rows[0] < |t.actions|)
  {
    if rows != [] {
      assert rows[0] in rows && forall i | i in rows[1..] :: i in rows;
    }
  }

  lemma StepKeepsHandler(s: Sys, step: Step)
    requires Traceable(s) && Enabled(s, step)
    ensures var t := Apply(s, step);
            && (t.handler.Ticking? ==> RowsAccepted(t, t.handler.rows))
            && (t.handler.Inserted? ==> RowsAccepted(t, t.handler.rest) && t.handler.action < |t.actions|)
  {
    var t := Apply(s, step);
    StepExtends(s, step);
    StepMovesHandler(s, step);
    FetchedAreAccepted(s);
    RowsStay(s, t, Accepting(s.actions, |s.actions|));
    if s.handler.Ticking? {
      RowsStay(s, t, s.handler.rows);
    } else if s.handler.Inserted? {
      RowsStay(s, t, s.handler.rest);
    }
  }

  lemma StepKeepsTrace(s: Sys, step: Step)
    requires Traceable(s) && Enabled(s, step)
    ensures Traceable(Apply(s, step))
  {
    var t := Apply(s, step);
    forall i | 0 <= i < |t.actions|
      ensures ActionLinked(t, t.actions[i]) && (t.actions[i].state.Accepted? ==> i in t.accepted)
    {
      StepKeepsAction(s, step, i);
    }
    forall i | 0 <= i < |t.jobs|
      ensures JobLinked(t, t.jobs[i])
    {
      StepAddsJobs(s, step);
      if i < |s.jobs| {
        OldJobStays(s, step, i);
      } else {
        NewJobLinked(s, step);
      }
    }
    forall w | w in t.workers
      ensures WorkLinked(t, t.workers[w])
    {
      StepKeepsWorker(s, step, w);
    }
    StepKeepsHandler(s, step);
  }

  lemma {:induction false} RunKeepsTrace(s: Sys, steps: seq<Step>, t: Sys)
    requires Traceable(s) && Runs(s, steps, t)
    ensures Traceable(t)
    decreases steps
  {
    if steps != [] {
      StepKeepsTrace(s, steps[0]);
      RunKeepsTrace(Apply(s, steps[0]), steps[1..], t);
    }
  }

  /**
   In every interleaving: the payload of every job names a study action that was accepted
   at some point, with its ticker, its light brief as parent and that brief's event; a
   done job's brief, and a study action's result, is the full study of exactly those.
   */
  lemma EveryStudyIsTraceable(steps: seq<Step>, t: Sys)
    requires Runs(EMPTY, steps, t)
    ensures forall i | 0 <= i < |t.jobs| :: JobLinked(t, t.jobs[i])
    ensures forall i | 0 <= i < |t.actions| && t.actions[i].kind.Study? && t.actions[i].resultBrief.Some? ::
              && t.actions[i].brief < |t.briefs| && t.briefs[t.actions[i].brief].event.Some? && t.actions[i].ticker.Some?
              && FullFor(t, t.actions[i].resultBrief.value, t.actions[i].brief,
                         t.briefs[t.actions[i].brief].event.value, t.actions[i].ticker.value)
  {
    RunKeepsTrace(EMPTY, steps, t);
    forall i | 0 <= i < |t.actions|
      ensures ActionLinked(t, t.actions[i])
    {
    }
  }

  // ----- why a job or an action changes -----

  /**
   A job changes its phase only as the oldest queued one when it is leased, by the worker
   that holds it, or by a sweep if it was running since before the limit.
   */
  lemma PhaseHasACause(s: Sys, step: Step, i: nat)
    requires Enabled(s, step) && i < |s.jobs|
    ensures |s.jobs| <= |Apply(s, step).jobs|
    ensures var p, q := s.jobs[i].phase, Apply(s, step).jobs[i].phase;
            match step
            case Lease(_, now) => q == if p.Queued? && (forall k | 0 <= k < i :: !s.jobs[k].phase.Queued?) then Running(now) else p
            case Finish(w) => q == if s.workers[w].job == i then Done(s.workers[w].brief) else p
            case Fail(w) => q == if s.workers[w].job == i then Error else p
            case Sweep(now, maxAge) => q == if p.Running? && p.started < now - maxAge then Error else p
            case _ => q == p
  {
    StepExtends(s, step);
    if step.Handle? {
      SettleExtends(s, s.handler.rows[0], step.result);
    }
  }

  /** After a sweep no job runs that started before the limit, and no job leased since the limit was errored by it. */
  lemma SweepMeans(s: Sys, now: int, maxAge: int)
    ensures var t := Apply(s, Sweep(now, maxAge));
            && t == s.(jobs := t.jobs) && |t.jobs| == |s.jobs|
            && (forall i | 0 <= i < |t.jobs| && t.jobs[i].phase.Running? :: t.jobs[i].phase.started >= now - maxAge)
            && (forall i | 0 <= i < |t.jobs| && s.jobs[i].phase.Running? && s.jobs[i].phase.started >= now - maxAge ::
                  t.jobs[i] == s.jobs[i])
            && (forall i | 0 <= i < |t.jobs| && !s.jobs[i].phase.Running? :: t.jobs[i] == s.jobs[i])
            && (forall i | 0 <= i < |t.jobs| && t.jobs[i] != s.jobs[i] ::
                  s.jobs[i].phase.Running? && s.jobs[i].phase.started < now - maxAge && t.jobs[i] == s.jobs[i].(phase := Error))
  {
  }

  /** In the run a worker that holds job j fails, or a sweep finds the job leased at `started` too old. */
  ghost predicate FailsOrGoesStale(s: Sys, steps: seq<Step>, j: nat, started: int)
    decreases steps
  {
    && steps != [] && Enabled(s, steps[0])
    && (|| (steps[0].Fail? && s.workers[steps[0].w].job == j)
        || (steps[0].Sweep? && started < steps[0].now - steps[0].maxAge)
        || FailsOrGoesStale(Apply(s, steps[0]), steps[1..], j, started))
  }

  /** So a leased job that no worker fails, and that no sweep finds too old, is never an error, in any run. */
  lemma {:induction false} LeasedJobErrs(s: Sys, steps: seq<Step>, t: Sys, j: nat, started: int)
    requires Runs(s, steps, t) && j < |s.jobs| && (s.jobs[j].phase == Running(started) || s.jobs[j].phase.Done?)
    requires !FailsOrGoesStale(s, steps, j, started)
    ensures j < |t.jobs| && (t.jobs[j].phase == Running(started) || t.jobs[j].phase.Done?)
    decreases steps
  {
    if steps != [] {
      PhaseHasACause(s, steps[0], j);
      LeasedJobErrs(Apply(s, steps[0]), steps[1..], t, j, started);
    }
  }

  /** An action changes its answer only by an answer to it, or by expiring past its time while it is pending. */
  lemma AnswerHasACause(s: Sys, step: Step, i: nat)
    requires Enabled(s, step) && i < |s.actions|
    ensures |s.actions| <= |Apply(s, step).actions|
    ensures Apply(s, step).actions[i].state == match step
              case Respond(k, accept) => if k != i then s.actions[i].state else if accept then Accepted else Declined
              case Expire(now) => if s.actions[i].state == Pending && s.actions[i].expires < now then Expired else s.actions[i].state
              case _ => s.actions[i].state
  {
    StepExtends(s, step);
    if step.Handle? {
      SettleMoves(s, s.handler.rows[0], step.result, i);
    }
  }

  // ----- the queue -----

  /** Jobs leave the queue in order, once: the first |leases| jobs were leased, each at its turn. */
  ghost predicate InOrder(s: Sys) {
    && |s.leases| <= |s.jobs|
    && (forall k | 0 <= k < |s.leases| :: s.leases[k] == k)
    && (forall i | 0 <= i < |s.jobs| :: s.jobs[i].phase.Queued? <==> i >= |s.leases|)
    && (forall w | w in s.workers :: s.workers[w].job < |s.leases|)
  }

  lemma LeaseKeepsOrder(s: Sys, step: Step)
    requires InOrder(s) && Enabled(s, step) && step.Lease?
    ensures InOrder(Apply(s, step)) && s.leases <= Apply(s, step).leases
  {
    OldestIsNext(s);
  }

  lemma HandleKeepsOrder(s: Sys, step: Step)
    requires InOrder(s) && Enabled(s, step) && step.Handle?
    ensures InOrder(Apply(s, step)) && s.leases <= Apply(s, step).leases
  {
    SettleKeepsQueue(s, s.handler.rows[0], step.result);
  }

  lemma SettleKeepsQueue(s: Sys, i: nat, result: Option<nat>)
    requires i < |s.actions| && s.actions[i].brief < |s.briefs|
    ensures var t := Settle(s, i, result); t.jobs == s.jobs && t.leases == s.leases && t.workers == s.workers
  {
  }

  lemma StepKeepsOrder(s: Sys, step: Step)
    requires InOrder(s) && Enabled(s, step)
    ensures InOrder(Apply(s, step)) && s.leases <= Apply(s, step).leases
  {
    if step.Lease? {
      LeaseKeepsOrder(s, step);
    } else if step.Handle? {
      HandleKeepsOrder(s, step);
    } else {
      OtherStepKeepsOrder(s, step);
    }
  }

  lemma OtherStepKeepsOrder(s: Sys, step: Step)
    requires InOrder(s) && Enabled(s, step) && !step.Lease? && !step.Handle?
    ensures InOrder(Apply(s, step)) && s.leases <= Apply(s, step).leases
  {
  }

  lemma OldestIsNext(s: Sys)
    requires InOrder(s)
    ensures FirstQueued(s.jobs, 0) == |s.leases|
  {
    var r := FirstQueued(s.jobs, 0);
    assert |s.leases| < |s.jobs| ==> s.jobs[|s.leases|].phase.Queued?;
    assert r > 0 ==> !s.jobs[r - 1].phase.Queued?;
  }

  /**
   With any number of workers, enqueues, sweeps, crashes and late finishes: leases go up
   by one job id at a time, so no job is leased twice; a job that left the queue never
   returns to it; and every queued id exceeds every other.
   */
  lemma {:induction false} QueueIsFifo(s: Sys, steps: seq<Step>, t: Sys)
    requires InOrder(s) && Runs(s, steps, t)
    ensures InOrder(t) && s.leases <= t.leases
    ensures forall i | 0 <= i < |s.jobs| && !s.jobs[i].phase.Queued? :: i < |t.jobs| && !t.jobs[i].phase.Queued?
    ensures forall i, j | 0 <= i < |t.jobs| && 0 <= j < |t.jobs| && !t.jobs[i].phase.Queued? && t.jobs[j].phase.Queued? :: i < j
    decreases steps
  {
    if steps != [] {
      StepKeepsOrder(s, steps[0]);
      QueueIsFifo(Apply(s, steps[0]), steps[1..], t);
    }
  }

  // ----- one job an approval -----

  function JobsFor(jobs: seq<Job>, a: nat): nat {
    if jobs == [] then 0 else JobsFor(jobs[..|jobs| - 1], a) + if jobs[|jobs| - 1].action == a then 1 else 0
  }

  lemma {:induction false} JobsForSame(jobs: seq<Job>, others: seq<Job>, a: nat)
    requires |jobs| == |others| && forall i | 0 <= i < |jobs| :: others[i].action == jobs[i].action
    ensures JobsFor(others, a) == JobsFor(jobs, a)
    decreases jobs
  {
    if jobs != [] {
      JobsForSame(jobs[..|jobs| - 1], others[..|jobs| - 1], a);
    }
  }

  lemma JobsForMore(jobs: seq<Job>, j: Job, a: nat)
    ensures JobsFor(jobs + [j], a) == JobsFor(jobs, a) + if j.action == a then 1 else 0
  {
  }

  /** Is the action dispatched, or just being dispatched? */
  function InHand(s: Sys, a: nat): nat {
    (if a < |s.actions| && s.actions[a].resultJob.Some? then 1 else 0)
    + if s.handler.Inserted? && s.handler.action == a then 1 else 0
  }

  /** A row the handler still holds was not dispatched, and it holds it once. */
  ghost predicate ToDispatch(s: Sys, rows: seq<nat>) {
    && (forall i, j | 0 <= i < j < |rows| :: rows[i] < rows[j])
    && (forall i | i in rows :: i < |s.actions| && s.actions[i].resultJob.None?)
  }

  ghost predicate HandlerHolds(s: Sys) {
    && (s.handler.Ticking? ==> ToDispatch(s, s.handler.rows))
    && (s.handler.Inserted? ==>
          && ToDispatch(s, [s.handler.action] + s.handler.rest)
          && s.handler.job < |s.jobs| && s.jobs[s.handler.job].action == s.handler.action)
    && (forall i | 0 <= i < |s.jobs| :: s.jobs[i].action < |s.actions|)
  }

  ghost predicate CountedFor(s: Sys, a: nat) {
    JobsFor(s.jobs, a) == Interrupted(s, a) + InHand(s, a)
  }

  ghost predicate Counted(s: Sys) {
    HandlerHolds(s) && forall a: nat :: CountedFor(s, a)
  }

  lemma RestToDispatch(s: Sys, rows: seq<nat>)
    requires rows != [] && ToDispatch(s, rows)
    ensures ToDispatch(s, rows[1..]) && rows[0] !in rows[1..] && rows == [rows[0]] + rows[1..]
  {
  }

  /** Dispatched jobs are only noted, and jobs only added. */
  ghost predicate KeepsDispatches(s: Sys, t: Sys) {
    && |s.actions| <= |t.actions| && (forall i | 0 <= i < |s.actions| :: t.actions[i].resultJob == s.actions[i].resultJob)
    && |s.jobs| <= |t.jobs| && (forall i | 0 <= i < |s.jobs| :: t.jobs[i].action == s.jobs[i].action)
  }

  lemma SettleKeepsResultJobs(s: Sys, i: nat, result: Option<nat>)
    requires i < |s.actions| && s.actions[i].brief < |s.briefs|
    ensures var t := Settle(s, i, result);
            |t.actions| == |s.actions| && forall k | 0 <= k < |s.actions| :: t.actions[k].resultJob == s.actions[k].resultJob
  {
  }

  /** No step but MarkDispatched touches a result job; a new action has none. */
  lemma StepKeepsResultJobs(s: Sys, step: Step)
    requires Enabled(s, step) && !step.MarkDispatched?
    ensures var t := Apply(s, step);
            && |s.actions| <= |t.actions| && (forall i | 0 <= i < |s.actions| :: t.actions[i].resultJob == s.actions[i].resultJob)
            && (forall i | |s.actions| <= i < |t.actions| :: t.actions[i].resultJob.None?)
  {
    if step.Handle? {
      SettleKeepsResultJobs(s, s.handler.rows[0], step.result);
    }
  }

  /** Only Handle adds a job, for the action it then holds. */
  lemma StepAddsJobs(s: Sys, step: Step)
    requires Enabled(s, step)
    ensures |Apply(s, step).jobs| == |s.jobs|
         || (step.Handle? && Apply(s, step).handler == Inserted(s.handler.rows[0], |s.jobs|, s.handler.rows[1..])
             && |Apply(s, step).jobs| == |s.jobs| + 1 && Apply(s, step).jobs[|s.jobs|].action == s.handler.rows[0])
  {
  }

  lemma StepKeepsDispatches(s: Sys, step: Step)
    requires Enabled(s, step) && !step.MarkDispatched?
    ensures KeepsDispatches(s, Apply(s, step))
    ensures |Apply(s, step).jobs| == |s.jobs|
         || (step.Handle? && Apply(s, step).handler == Inserted(s.handler.rows[0], |s.jobs|, s.handler.rows[1..])
             && |Apply(s, step).jobs| == |s.jobs| + 1 && Apply(s, step).jobs[|s.jobs|].action == s.handler.rows[0])
    ensures forall i | |s.actions| <= i < |Apply(s, step).actions| :: Apply(s, step).actions[i].resultJob.None?
  {
    StepExtends(s, step);
    StepKeepsResultJobs(s, step);
    StepAddsJobs(s, step);
  }

  lemma StillToDispatch(s: Sys, t: Sys, rows: seq<nat>)
    requires KeepsDispatches(s, t) && ToDispatch(s, rows)
    ensures ToDispatch(t, rows)
  {
  }

  lemma HandleKeepsHolding(s: Sys, step: Step)
    requires HandlerHolds(s) && Enabled(s, step) && step.Handle?
    ensures HandlerHolds(Apply(s, step))
  {
    var rows := s.handler.rows;
    StepKeepsDispatches(s, step);
    StepMovesHandler(s, step);
    RestToDispatch(s, rows);
    StillToDispatch(s, Apply(s, step), rows);
    StillToDispatch(s, Apply(s, step), rows[1..]);
  }

  lemma MarkKeepsHolding(s: Sys, step: Step)
    requires HandlerHolds(s) && Enabled(s, step) && step.MarkDispatched?
    ensures HandlerHolds(Apply(s, step))
  {
    var rows := [s.handler.action] + s.handler.rest;
    RestToDispatch(s, rows);
    assert rows[1..] == s.handler.rest;
  }

  lemma StepKeepsHolding(s: Sys, step: Step)
    requires HandlerHolds(s) && Enabled(s, step)
    ensures HandlerHolds(Apply(s, step))
  {
    if step.Handle? {
      HandleKeepsHolding(s, step);
    } else if step.MarkDispatched? {
      MarkKeepsHolding(s, step);
    } else {
      StepKeepsDispatches(s, step);
      StepMovesHandler(s, step);
      OtherStepKeepsHolding(s, step, Apply(s, step));
    }
  }

  lemma OtherStepKeepsHolding(s: Sys, step: Step, t: Sys)
    requires HandlerHolds(s) && KeepsDispatches(s, t) && |t.jobs| == |s.jobs|
    requires || t.handler == s.handler || t.handler.Idle?
             || (s.handler.Inserted? && t.handler == Ticking(s.handler.rest))
             || (s.handler.Ticking? && s.handler.rows != [] && t.handler == Ticking(s.handler.rows[1..]))
             || t.handler == Ticking(Accepting(s.actions, |s.actions|))
    ensures HandlerHolds(t)
  {
    AcceptingMeans(s.actions, |s.actions|);
    if s.handler.Inserted? {
      var rows := [s.handler.action] + s.handler.rest;
      RestToDispatch(s, rows);
      assert rows[1..] == s.handler.rest;
      StillToDispatch(s, t, rows);
      StillToDispatch(s, t, s.handler.rest);
    } else if s.handler.Ticking? {
      StillToDispatch(s, t, s.handler.rows);
      if s.handler.rows != [] {
        RestToDispatch(s, s.handler.rows);
        StillToDispatch(s, t, s.handler.rows[1..]);
      }
    }
  }

  lemma EnqueueCounts(s: Sys, t: Sys, a: nat)
    requires KeepsDispatches(s, t) && |t.jobs| == |s.jobs| + 1
    ensures JobsFor(t.jobs, a) == JobsFor(s.jobs, a) + if t.jobs[|s.jobs|].action == a then 1 else 0
  {
    JobsForSame(s.jobs, t.jobs[..|s.jobs|], a);
    assert t.jobs == t.jobs[..|s.jobs|] + [t.jobs[|s.jobs|]];
    JobsForMore(t.jobs[..|s.jobs|], t.jobs[|s.jobs|], a);
  }

  lemma SettleInterruptsNone(s: Sys, i: nat, result: Option<nat>)
    requires i < |s.actions| && s.actions[i].brief < |s.briefs|
    ensures Settle(s, i, result).interruptions == s.interruptions && |Settle(s, i, result).actions| == |s.actions|
  {
  }

  lemma HandleKeepsCount(s: Sys, step: Step, a: nat)
    requires HandlerHolds(s) && CountedFor(s, a) && Enabled(s, step) && step.Handle?
    ensures CountedFor(Apply(s, step), a)
  {
    var t, i := Apply(s, step), s.handler.rows[0];
    StepKeepsDispatches(s, step);
    assert i in s.handler.rows;
    if s.actions[i].kind.Study? && WellLinked(s, i) {
      EnqueueCounts(s, t, a);
    } else {
      SettleInterruptsNone(s, i, step.result);
      SettleExtends(s, i, step.result);
    }
  }

  lemma MarkKeepsCount(s: Sys, step: Step, a: nat)
    requires HandlerHolds(s) && CountedFor(s, a) && Enabled(s, step)
    requires step.MarkDispatched? || step.MarkFails? || step.HandlerCrash?
    ensures CountedFor(Apply(s, step), a)
  {
    if s.handler.Inserted? {
      assert s.handler.action in [s.handler.action] + s.handler.rest;
    }
  }

  lemma OtherStepKeepsCount(s: Sys, step: Step, a: nat)
    requires CountedFor(s, a) && Enabled(s, step)
    requires !step.Handle? && !step.MarkDispatched? && !step.MarkFails? && !step.HandlerCrash?
    ensures CountedFor(Apply(s, step), a)
  {
    var t := Apply(s, step);
    StepKeepsDispatches(s, step);
    StepMovesHandler(s, step);
    assert t.interruptions == s.interruptions;
    assert t.handler.Inserted? <==> s.handler.Inserted?;
    JobsForSame(s.jobs, t.jobs, a);
  }

  lemma StepKeepsCount(s: Sys, step: Step, a: nat)
    requires HandlerHolds(s) && CountedFor(s, a) && Enabled(s, step)
    ensures CountedFor(Apply(s, step), a)
  {
    if step.Handle? {
      HandleKeepsCount(s, step, a);
    } else if step.MarkDispatched? || step.MarkFails? || step.HandlerCrash? {
      MarkKeepsCount(s, step, a);
    } else {
      OtherStepKeepsCount(s, step, a);
    }
  }

  lemma {:induction false} RunKeepsCount(s: Sys, steps: seq<Step>, t: Sys)
    requires Counted(s) && Runs(s, steps, t)
    ensures Counted(t)
    decreases steps
  {
    if steps != [] {
      var next := Apply(s, steps[0]);
      StepKeepsHolding(s, steps[0]);
      forall a: nat
        ensures CountedFor(next, a)
      {
        assert CountedFor(s, a);
        StepKeepsCount(s, steps[0], a);
      }
      RunKeepsCount(next, steps[1..], t);
    }
  }

  /**
   With one handler, whatever else happens: the jobs for an action are as many as its
   interruptions, plus one if it is marked as dispatched or its mark is still to come.
   */
  lemma JobsAreCounted(steps: seq<Step>, t: Sys, a: nat)
    requires Runs(EMPTY, steps, t)
    ensures JobsFor(t.jobs, a) == Interrupted(t, a) + InHand(t, a)
    ensures JobsFor(t.jobs, a) <= 1 + Interrupted(t, a)
  {
    assert forall b: nat :: CountedFor(EMPTY, b);
    RunKeepsCount(EMPTY, steps, t);
    assert CountedFor(t, a);
    if t.handler.Inserted? {
      assert t.handler.action in [t.handler.action] + t.handler.rest;
    }
  }

  // ----- the count is reached -----

  /** An accepted study on its alert, enqueued k times by a handler that stopped each time before the mark. */
  ghost predicate Retrying(s: Sys, event: nat, ticker: string, k: nat) {
    && s.briefs == [Brief(Light, None, Some(event), "", false)]
    && s.actions == [Action(0, Study, Some(ticker), Accepted, 0, None, None, None, false)]
    && |s.jobs| == k == JobsFor(s.jobs, 0) == Interrupted(s, 0) && s.handler.Idle?
  }

  lemma AcceptedStudy(event: nat, ticker: string) returns (steps: seq<Step>, t: Sys)
    ensures Runs(EMPTY, steps, t) && Retrying(t, event, ticker, 0)
  {
    var light, study := AddLight(event), AddStudy(0, Some(ticker), 0);
    var s1 := Apply(EMPTY, light);
    var s2 := Apply(s1, study);
    t := Apply(s2, Respond(0, true));
    RunsOne(s2, Respond(0, true));
    Prepend(s1, study, [Respond(0, true)], t);
    Prepend(EMPTY, light, [study, Respond(0, true)], t);
    steps := [light] + ([study] + [Respond(0, true)]);
  }

  /** The handler fetches the row and enqueues it. */
  lemma Enqueued(s: Sys, event: nat, ticker: string, k: nat) returns (steps: seq<Step>, t: Sys)
    requires Retrying(s, event, ticker, k) && ticker != ""
    ensures Runs(s, steps, t) && t == Enqueue(s, 0).(handler := Inserted(0, k, []))
    ensures JobsFor(t.jobs, 0) == k + 1
  {
    AcceptingMeans(s.actions, 1);
    assert Accepting(s.actions, 0) == [] && Accepting(s.actions, 1) == [0];
    var ticking := Apply(s, Fetch);
    t := Apply(ticking, Handle(None));
    assert ticking.handler.rows == [0] && ticking.handler.rows[1..] == [];
    assert ticking.actions[0].kind.Study? && WellLinked(ticking, 0);
    JobsForMore(s.jobs, t.jobs[k], 0);
    RunsOne(ticking, Handle(None));
    Prepend(s, Fetch, [Handle(None)], t);
    steps := [Fetch] + [Handle(None)];
  }

  lemma {:induction false} Retries(event: nat, ticker: string, k: nat) returns (steps: seq<Step>, t: Sys)
    requires ticker != ""
    ensures Runs(EMPTY, steps, t) && Retrying(t, event, ticker, k)
  {
    if k == 0 {
      steps, t := AcceptedStudy(event, ticker);
    } else {
      var before, s := Retries(event, ticker, k - 1);
      var more, inserted := Enqueued(s, event, ticker, k - 1);
      t := Apply(inserted, HandlerCrash);
      RunsOne(inserted, HandlerCrash);
      RunsAppend(s, more, inserted, [HandlerCrash], t);
      RunsAppend(EMPTY, before, s, more + [HandlerCrash], t);
      steps := before + (more + [HandlerCrash]);
    }
  }

  /** For every number of interruptions there is a run in which the dispatched study has that many jobs and one more. */
  lemma JobsReachTheBound(event: nat, ticker: string, interruptions: nat) returns (steps: seq<Step>, t: Sys)
    requires ticker != ""
    ensures Runs(EMPTY, steps, t) && Interrupted(t, 0) == interruptions && JobsFor(t.jobs, 0) == 1 + interruptions
    ensures |t.actions| == 1 && t.actions[0].resultJob == Some(interruptions) && t.handler.Idle?
  {
    var before, s := Retries(event, ticker, interruptions);
    var more, inserted := Enqueued(s, event, ticker, interruptions);
    var marked := Apply(inserted, MarkDispatched);
    t := Apply(marked, EndTick);
    RunsOne(marked, EndTick);
    Prepend(inserted, MarkDispatched, [EndTick], t);
    RunsAppend(s, more, inserted, [MarkDispatched] + [EndTick], t);
    RunsAppend(EMPTY, before, s, more + ([MarkDispatched] + [EndTick]), t);
    steps := before + (more + ([MarkDispatched] + [EndTick]));
  }

  // ----- when an error is final -----

  /** Some worker still holds the job: it was abandoned, not ended. */
  ghost predicate Held(s: Sys, j: nat) {
    exists w :: w in s.workers && s.workers[w].job == j
  }

  predicate JobsKnown(s: Sys) {
    forall i | 0 <= i < |s.jobs| :: s.jobs[i].action < |s.actions|
  }

  lemma KnownByTrace(s: Sys)
    requires Traceable(s)
    ensures JobsKnown(s)
  {
    forall i | 0 <= i < |s.jobs|
      ensures s.jobs[i].action < |s.actions|
    {
      assert JobLinked(s, s.jobs[i]);
    }
  }

  lemma StepKeepsError(s: Sys, step: Step, j: nat)
    requires Enabled(s, step) && j < |s.jobs| && s.jobs[j].phase == Error && !Held(s, j)
    ensures j < |Apply(s, step).jobs| && Apply(s, step).jobs[j].phase == Error && !Held(Apply(s, step), j)
  {
    var t := Apply(s, step);
    StepExtends(s, step);
    PhaseMoves(s, step, j);
    forall w | w in t.workers
      ensures t.workers[w].job != j
    {
      StepMovesWorkers(s, step, w);
    }
  }

  /** An errored job that no worker holds stays an error, whatever follows. */
  lemma {:induction false} ErrorIsFinal(s: Sys, steps: seq<Step>, t: Sys, j: nat)
    requires j < |s.jobs| && s.jobs[j].phase == Error && !Held(s, j) && Runs(s, steps, t)
    ensures j < |t.jobs| && t.jobs[j].phase == Error
    decreases steps
  {
    if steps != [] {
      StepKeepsError(s, steps[0], j);
      ErrorIsFinal(Apply(s, steps[0]), steps[1..], t, j);
    }
  }

  function StepsToDo(k: Work): nat {
    if k.Leased? then 2 else if k.Composed? then 1 else 0
  }

  /** A job that a worker holds can be run to done, whatever its phase. */
  lemma {:induction false} HeldJobMayFinish(s: Sys, w: nat, hasRuns: bool) returns (steps: seq<Step>, t: Sys)
    requires JobsKnown(s) && Works(s, w)
    ensures Runs(s, steps, t) && s.workers[w].job < |t.jobs| && t.jobs[s.workers[w].job].phase.Done?
    decreases StepsToDo(s.workers[w])
  {
    if s.workers[w].Linked? {
      RunsOne(s, Finish(w));
      return [Finish(w)], Apply(s, Finish(w));
    }
    var step := if s.workers[w].Leased? then Compose(w, hasRuns) else LinkAction(w);
    steps, t := HeldJobMayFinish(Apply(s, step), w, hasRuns);
    Prepend(s, step, steps, t);
    steps := [step] + steps;
  }

  predicate IsDone(s: Sys, j: nat) {
    j < |s.jobs| && s.jobs[j].phase.Done?
  }

  ghost predicate MayBecomeDone(s: Sys, j: nat) {
    exists steps, t :: Runs(s, steps, t) && IsDone(t, j)
  }

  /**
   So an error (from an exception or from the stale-lease sweep) is final exactly when no
   worker holds the job: a swept job whose abandoned run goes on can still become done.
   */
  lemma ErrorIsFinalUnlessHeld(before: seq<Step>, s: Sys, j: nat)
    requires Runs(EMPTY, before, s) && j < |s.jobs| && s.jobs[j].phase == Error
    ensures Held(s, j) <==> MayBecomeDone(s, j)
  {
    RunKeepsTrace(EMPTY, before, s);
    KnownByTrace(s);
    if Held(s, j) {
      var w :| w in s.workers && s.workers[w].job == j;
      var steps, t := HeldJobMayFinish(s, w, true);
      assert IsDone(t, j);
    }
    if MayBecomeDone(s, j) && !Held(s, j) {
      var steps, t :| Runs(s, steps, t) && IsDone(t, j);
      ErrorIsFinal(s, steps, t, j);
      assert false;
    }
  }

  lemma RunsOne(s: Sys, step: Step)
    requires Enabled(s, step)
    ensures Runs(s, [step], Apply(s, step))
  {
  }

  lemma Prepend(s: Sys, step: Step, steps: seq<Step>, t: Sys)
    requires Enabled(s, step) && Runs(Apply(s, step), steps, t)
    ensures Runs(s, [step] + steps, t)
  {
  }

  lemma {:induction false} RunsAppend(s: Sys, steps: seq<Step>, t: Sys, more: seq<Step>, u: Sys)
    requires Runs(s, steps, t) && Runs(t, more, u)
    ensures Runs(s, steps + more, u)
    decreases steps
  {
    if steps == [] {
      assert steps + more == more;
    } else {
      assert (steps + more)[1..] == steps[1..] + more;
      RunsAppend(Apply(s, steps[0]), steps[1..], t, more, u);
    }
  }

  // ----- an undisturbed tick -----

  /** Every action hangs on a brief, which the database's foreign key demands. */
  ghost predicate Anchored(s: Sys) {
    forall i | 0 <= i < |s.actions| :: s.actions[i].brief < |s.briefs|
  }

  predicate RowsIn(s: Sys, rows: seq<nat>) {
    forall k | 0 <= k < |rows| :: rows[k] < |s.actions|
  }

  /** One row of an undisturbed tick: both commits of an enqueue, or the other branches. */
  function Dispatched(s: Sys, i: nat, result: Option<nat>): Sys
    requires i < |s.actions| && s.actions[i].brief < |s.briefs|
  {
    if s.actions[i].kind.Study? && WellLinked(s, i)
    then SetAction(Enqueue(s, i), i, s.actions[i].(resultJob := Some(|s.jobs|)))
    else Settle(s, i, result)
  }

  lemma DispatchedMeans(s: Sys, i: nat, result: Option<nat>)
    requires Anchored(s) && i < |s.actions|
    ensures var t := Dispatched(s, i, result);
            && Anchored(t) && |t.actions| == |s.actions| && t.handler == s.handler && s.briefs <= t.briefs
            && (forall k | 0 <= k < |s.actions| && k != i :: t.actions[k] == s.actions[k])
            && (s.actions[i].kind.Study? && WellLinked(s, i) ==> t.actions[i].resultJob == Some(|s.jobs|))
  {
  }

  ghost function Ticked(s: Sys, rows: seq<nat>, results: seq<Option<nat>>): Sys
    requires |results| == |rows| && Anchored(s) && RowsIn(s, rows)
    decreases rows
  {
    if rows == [] then s
    else
      DispatchedMeans(s, rows[0], results[0]);
      Ticked(Dispatched(s, rows[0], results[0]), rows[1..], results[1..])
  }

  function RowSteps(s: Sys, i: nat, result: Option<nat>): seq<Step>
    requires i < |s.actions| && s.actions[i].brief < |s.briefs|
  {
    if s.actions[i].kind.Study? && WellLinked(s, i) then [Handle(result), MarkDispatched] else [Handle(result)]
  }

  lemma RowIsARun(s: Sys, rows: seq<nat>, result: Option<nat>)
    requires Anchored(s) && rows != [] && rows[0] < |s.actions| && s.handler == Ticking(rows)
    ensures Runs(s, RowSteps(s, rows[0], result), Dispatched(s, rows[0], result).(handler := Ticking(rows[1..])))
  {
    var i := rows[0];
    var t := Dispatched(s, i, result).(handler := Ticking(rows[1..]));
    if s.actions[i].kind.Study? && WellLinked(s, i) {
      var inserted := Apply(s, Handle(result));
      assert Apply(inserted, MarkDispatched) == t;
      RunsOne(inserted, MarkDispatched);
      Prepend(s, Handle(result), [MarkDispatched], t);
    } else {
      assert Apply(s, Handle(result)) == t;
      RunsOne(s, Handle(result));
    }
  }

  /**
   What the next tick does with a row that was handled: it fetches it again exactly if its
   kind is unknown, or if its refinement, or its backtest of a full brief with runs, failed.
   */
  lemma HandledAgain(s: Sys, i: nat, result: Option<nat>)
    requires Anchored(s) && i < |s.actions| && Undispatched(s.actions[i])
    ensures var a, b := s.actions[i], s.briefs[s.actions[i].brief];
            i in Accepting(Dispatched(s, i, result).actions, |s.actions|) <==>
              || a.kind.Unknown?
              || (result.None? && (a.kind.Refine? || (a.kind.Backtest? && b.mode.Full? && b.hasRuns)))
  {
    DispatchedMeans(s, i, result);
    AcceptingMeans(Dispatched(s, i, result).actions, |s.actions|);
  }

  lemma HandlerApart(s: Sys, i: nat, result: Option<nat>, h: Handler)
    requires Anchored(s) && i < |s.actions|
    ensures Dispatched(s.(handler := h), i, result) == Dispatched(s, i, result).(handler := h)
  {
  }

  lemma {:induction false} TickIsARun(s: Sys, rows: seq<nat>, results: seq<Option<nat>>) returns (steps: seq<Step>)
    requires |results| == |rows| && Anchored(s) && RowsIn(s, rows)
    ensures Runs(s.(handler := Ticking(rows)), steps, Ticked(s, rows, results).(handler := Ticking([])))
    decreases rows
  {
    if rows == [] {
      return [];
    }
    DispatchedMeans(s, rows[0], results[0]);
    var here, next := s.(handler := Ticking(rows)), Dispatched(s, rows[0], results[0]);
    RowIsARun(here, rows, results[0]);
    HandlerApart(s, rows[0], results[0], Ticking(rows));
    steps := TickIsARun(next, rows[1..], results[1..]);
    RunsAppend(here, RowSteps(here, rows[0], results[0]), next.(handler := Ticking(rows[1..])), steps,
               Ticked(s, rows, results).(handler := Ticking([])));
    steps := RowSteps(here, rows[0], results[0]) + steps;
  }

  /** Once dispatched, an action has one job and one more for each interruption, whatever follows. */
  lemma {:induction false} DispatchedStays(s: Sys, steps: seq<Step>, t: Sys, a: nat)
    requires Counted(s) && Runs(s, steps, t) && a < |s.actions| && s.actions[a].resultJob.Some?
    ensures a < |t.actions| && t.actions[a].resultJob.Some? && JobsFor(t.jobs, a) == 1 + Interrupted(t, a)
    decreases steps
  {
    if steps == [] {
      assert CountedFor(t, a);
      if t.handler.Inserted? {
        assert t.handler.action in [t.handler.action] + t.handler.rest;
      }
    } else {
      var next := Apply(s, steps[0]);
      RunsOne(s, steps[0]);
      RunKeepsCount(s, [steps[0]], next);
      StepKeepsDispatched(s, steps[0], a);
      DispatchedStays(next, steps[1..], t, a);
    }
  }

  lemma StepKeepsDispatched(s: Sys, step: Step, a: nat)
    requires Enabled(s, step) && a < |s.actions| && s.actions[a].resultJob.Some?
    ensures a < |Apply(s, step).actions| && Apply(s, step).actions[a].resultJob.Some?
  {
    if !step.MarkDispatched? {
      StepKeepsResultJobs(s, step);
    }
  }

  lemma AnchoredByTrace(s: Sys)
    requires Traceable(s)
    ensures Anchored(s)
  {
  }

  /** So the foreign key never fails. */
  lemma EveryRunIsAnchored(steps: seq<Step>, t: Sys)
    requires Runs(EMPTY, steps, t)
    ensures Anchored(t)
  {
    RunKeepsTrace(EMPTY, steps, t);
    AnchoredByTrace(t);
  }

  // ----- an approved study gets its job, whatever happens during the tick -----

  /** The action is dispatched, or the handler still has it to dispatch. */
  predicate OnItsWay(s: Sys, a: nat) {
    && a < |s.actions| && s.actions[a].kind.Study? && s.actions[a].brief < |s.briefs| && WellLinked(s, a)
    && (|| s.actions[a].resultJob.Some?
        || (s.handler.Ticking? && a in s.handler.rows)
        || (s.handler.Inserted? && (a == s.handler.action || a in s.handler.rest)))
  }

  /** The handler does not stop at the action, and does not die before it is dispatched. */
  predicate Spared(s: Sys, step: Step, a: nat) {
    && (step.RowFails? ==> s.handler.Ticking? && s.handler.rows != [] && s.handler.rows[0] != a)
    && (step.MarkFails? ==> s.handler.Inserted? && s.handler.action != a)
    && (step.HandlerCrash? ==> a < |s.actions| && s.actions[a].resultJob.Some?)
  }

  ghost predicate Undisturbed(s: Sys, steps: seq<Step>, a: nat)
    decreases steps
  {
    steps == [] || (Enabled(s, steps[0]) && Spared(s, steps[0], a) && Undisturbed(Apply(s, steps[0]), steps[1..], a))
  }

  lemma HandleKeepsOnItsWay(s: Sys, step: Step, a: nat)
    requires Enabled(s, step) && step.Handle? && OnItsWay(s, a)
    ensures OnItsWay(Apply(s, step), a)
  {
    HandleExtends(s, step);
    SettleKeepsResultJobs(s, s.handler.rows[0], step.result);
    var rows := s.handler.rows;
    assert a in rows ==> a == rows[0] || a in rows[1..];
  }

  lemma StepKeepsOnItsWay(s: Sys, step: Step, a: nat)
    requires Enabled(s, step) && Spared(s, step, a) && OnItsWay(s, a)
    ensures OnItsWay(Apply(s, step), a)
  {
    if step.Handle? {
      HandleKeepsOnItsWay(s, step, a);
    } else {
      StepExtends(s, step);
      StepMovesHandler(s, step);
      assert step.RowFails? ==> forall i | i in s.handler.rows :: i == s.handler.rows[0] || i in s.handler.rows[1..];
      if !step.MarkDispatched? {
        StepKeepsResultJobs(s, step);
      }
    }
  }

  lemma {:induction false} TickKeepsOnItsWay(s: Sys, steps: seq<Step>, t: Sys, a: nat)
    requires OnItsWay(s, a) && Undisturbed(s, steps, a) && Runs(s, steps, t)
    ensures OnItsWay(t, a)
    decreases steps
  {
    if steps != [] {
      StepKeepsOnItsWay(s, steps[0], a);
      TickKeepsOnItsWay(Apply(s, steps[0]), steps[1..], t, a);
    }
  }

  /**
   Take any reachable state in which the handler is idle and an accepted study is well
   linked and undispatched, and any tick from there, whatever other actors do during it,
   that the handler ends without stopping at the action and without dying before it is
   dispatched. Then the action has one job and one more for each interruption at it, ever
   after: exactly one if the handler was never interrupted at it.
   */
  lemma ApprovedStudyGetsOneJob(before: seq<Step>, s: Sys, a: nat, tick: seq<Step>, mid: Sys, after: seq<Step>, t: Sys)
    requires Runs(EMPTY, before, s) && s.handler.Idle?
    requires a < |s.actions| && s.actions[a].kind.Study? && Undispatched(s.actions[a])
    requires s.actions[a].brief < |s.briefs| && WellLinked(s, a)
    requires Runs(Apply(s, Fetch), tick, mid) && Undisturbed(Apply(s, Fetch), tick, a) && mid.handler.Idle?
    requires Runs(mid, after, t)
    ensures a < |t.actions| && t.actions[a].resultJob.Some?
    ensures JobsFor(t.jobs, a) == 1 + Interrupted(t, a)
  {
    var ticking := Apply(s, Fetch);
    AcceptingMeans(s.actions, |s.actions|);
    TickKeepsOnItsWay(ticking, tick, mid, a);
    assert forall b: nat :: CountedFor(EMPTY, b);
    RunKeepsCount(EMPTY, before, s);
    Prepend(s, Fetch, tick, mid);
    RunKeepsCount(s, [Fetch] + tick, mid);
    DispatchedStays(mid, after, t, a);
  }

  lemma {:induction false} TickedHandler(s: Sys, rows: seq<nat>, results: seq<Option<nat>>)
    requires |results| == |rows| && Anchored(s) && RowsIn(s, rows)
    ensures Ticked(s, rows, results).handler == s.handler
    decreases rows
  {
    if rows != [] {
      DispatchedMeans(s, rows[0], results[0]);
      TickedHandler(Dispatched(s, rows[0], results[0]), rows[1..], results[1..]);
    }
  }
}
