/**
 Copies in the dead stream. XADD-then-XACK is two commands, so an entry can be copied more
 than once: by a crash between the two, or by a worker that takes up the entry while another
 one is moving it. These are the only ways, and every number of either can happen.
 */
module DeadStream {
  import opened StreamProtocol

  /** A piece of work that may end in a copy. */
  predicate Moving(k: Work) {
    k.Claimed? || k.Listed? || k.Doomed? || k.Buried?
  }

  /** The workers that may be moving the entry, and those of them that have copied it. */
  ghost function Movers(s: Sys, id: Id): set<nat> {
    set w | w in s.work && Moving(s.work[w]) && s.work[w].id == id
  }

  ghost function Copiers(s: Sys, id: Id): (ws: set<nat>)
    ensures ws <= Movers(s, id)
  {
    set w | w in s.work && s.work[w] == Buried(id, true)
  }

  function Copies(dead: seq<Id>, id: Id): nat {
    if dead == [] then 0 else Copies(dead[..|dead| - 1], id) + if dead[|dead| - 1] == id then 1 else 0
  }

  lemma OneMoreCopy(dead: seq<Id>, d: Id, id: Id)
    ensures Copies(dead + [d], id) == Copies(dead, id) + if d == id then 1 else 0
  {
    assert (dead + [d])[..|dead|] == dead;
  }

  // ----- what a run counts -----

  /** A crash after the entry was copied and before it is acknowledged. */
  predicate LosesBurial(s: Sys, step: Step, id: Id) {
    step.Crash? && step.w in s.work && s.work[step.w] == Buried(id, true)
  }

  /** A worker takes the entry up while another one may be moving it. */
  ghost predicate Joins(s: Sys, step: Step, id: Id) {
    (step.AutoClaim? || step.List?) && step.id == id && Movers(s, id) != {}
  }

  ghost function LostBurials(c: Config, s: Sys, steps: seq<Step>, id: Id): nat
    decreases steps
  {
    if steps == [] || !Enabled(c, s, steps[0]) then 0
    else (if LosesBurial(s, steps[0], id) then 1 else 0) + LostBurials(c, Apply(c, s, steps[0]), steps[1..], id)
  }

  ghost function Joined(c: Config, s: Sys, steps: seq<Step>, id: Id): nat
    decreases steps
  {
    if steps == [] || !Enabled(c, s, steps[0]) then 0
    else (if Joins(s, steps[0], id) then 1 else 0) + Joined(c, Apply(c, s, steps[0]), steps[1..], id)
  }

  // ----- the bound -----

  /**
   Every mover that has not copied yet may still do so. While the entry is pending, each of
   its copies is lost or its copier's, and all movers but one have joined another.
   */
  ghost predicate Bounded(s: Sys, id: Id, lost: nat, joined: nat) {
    var copies, movers, copiers := Copies(s.dead, id), |Movers(s, id)|, |Copiers(s, id)|;
    && copies + movers <= 1 + lost + joined + copiers
    && (id in s.pel ==> copies <= lost + copiers && movers <= 1 + joined)
    && (id >= s.delivered ==> Movers(s, id) == {} && copies == 0 && id !in s.pel)
  }

  /** The entry has as many copies after as before, and the same work moves it. */
  ghost predicate SameMovers(s: Sys, t: Sys, id: Id) {
    && Copies(t.dead, id) == Copies(s.dead, id) && s.delivered <= t.delivered
    && Movers(t, id) == Movers(s, id) && Copiers(t, id) == Copiers(s, id)
    && (id in t.pel ==> id in s.pel || s.delivered <= id < t.delivered)
  }

  lemma SameMoversBounded(s: Sys, t: Sys, id: Id, lost: nat, joined: nat)
    requires Bounded(s, id, lost, joined) && SameMovers(s, t, id)
    ensures Bounded(t, id, lost, joined)
  {
    if s.delivered <= id {
      assert Copiers(s, id) == {};
    }
  }

  /** A worker that does not move the entry leaves its movers as they are, whatever it does. */
  lemma OthersStay(s: Sys, t: Sys, w: nat, id: Id)
    requires forall v | v != w :: (v in t.work <==> v in s.work) && (v in s.work ==> t.work[v] == s.work[v])
    requires w in s.work && Moving(s.work[w]) ==> s.work[w].id != id
    requires w in t.work && Moving(t.work[w]) ==> t.work[w].id != id
    ensures Movers(t, id) == Movers(s, id) && Copiers(t, id) == Copiers(s, id)
  {
  }

  /** The worker stays a mover of the entry, and makes its copy or does not. */
  lemma MoverStays(s: Sys, t: Sys, w: nat, id: Id)
    requires forall v | v != w :: (v in t.work <==> v in s.work) && (v in s.work ==> t.work[v] == s.work[v])
    requires w in Movers(s, id) && w !in Copiers(s, id) && w in Movers(t, id)
    ensures |Movers(t, id)| == |Movers(s, id)|
    ensures |Copiers(t, id)| == |Copiers(s, id)| + if t.work[w] == Buried(id, true) then 1 else 0
  {
    assert Movers(t, id) == Movers(s, id);
    if t.work[w] == Buried(id, true) {
      assert Copiers(t, id) == Copiers(s, id) + {w};
    } else {
      assert Copiers(t, id) == Copiers(s, id);
    }
  }

  lemma MoverJoins(s: Sys, t: Sys, w: nat, id: Id)
    requires forall v | v != w :: (v in t.work <==> v in s.work) && (v in s.work ==> t.work[v] == s.work[v])
    requires w !in s.work && w in Movers(t, id) && !t.work[w].Buried?
    ensures |Movers(t, id)| == |Movers(s, id)| + 1 && Copiers(t, id) == Copiers(s, id)
  {
    forall v
      ensures v in Movers(t, id) <==> v in Movers(s, id) || v == w
      ensures v in Copiers(t, id) <==> v in Copiers(s, id)
    {
    }
    assert Movers(t, id) == Movers(s, id) + {w};
  }

  lemma MoverLeaves(s: Sys, t: Sys, w: nat, id: Id)
    requires forall v | v != w :: (v in t.work <==> v in s.work) && (v in s.work ==> t.work[v] == s.work[v])
    requires w in Movers(s, id) && w !in Movers(t, id)
    ensures |Movers(t, id)| == |Movers(s, id)| - 1
    ensures |Copiers(t, id)| == |Copiers(s, id)| - if s.work[w] == Buried(id, true) then 1 else 0
  {
    assert Movers(t, id) == Movers(s, id) - {w};
    assert Copiers(t, id) == Copiers(s, id) - {w};
  }

  lemma BuryKeepsBounded(c: Config, s: Sys, step: Step, id: Id, lost: nat, joined: nat)
    requires Enabled(c, s, step) && step.Bury? && Bounded(s, id, lost, joined)
    ensures Bounded(Apply(c, s, step), id, lost, joined)
  {
    var t, k := Apply(c, s, step), s.work[step.w];
    OneMoreCopy(s.dead, k.id, id);
    if k.id == id {
      assert t.work[step.w] == Buried(id, k.fields);
      MoverStays(s, t, step.w, id);
    } else {
      OthersStay(s, t, step.w, id);
      SameMoversBounded(s, t, id, lost, joined);
    }
  }

  lemma CrashKeepsBounded(c: Config, s: Sys, step: Step, id: Id, lost: nat, joined: nat)
    requires Enabled(c, s, step) && step.Crash? && Bounded(s, id, lost, joined)
    ensures Bounded(Apply(c, s, step), id, lost + if LosesBurial(s, step, id) then 1 else 0, joined)
  {
    var t := Apply(c, s, step);
    if step.w in Movers(s, id) {
      MoverLeaves(s, t, step.w, id);
    } else {
      OthersStay(s, t, step.w, id);
      SameMoversBounded(s, t, id, lost, joined);
    }
  }

  lemma TakeKeepsBounded(c: Config, s: Sys, step: Step, id: Id, lost: nat, joined: nat)
    requires Enabled(c, s, step) && (step.AutoClaim? || step.List?) && Bounded(s, id, lost, joined)
    ensures Bounded(Apply(c, s, step), id, lost, joined + if Joins(s, step, id) then 1 else 0)
  {
    var t := Apply(c, s, step);
    if step.id == id {
      MoverJoins(s, t, step.w, id);
    } else {
      OthersStay(s, t, step.w, id);
      SameMoversBounded(s, t, id, lost, joined);
    }
  }

  lemma MoveKeepsBounded(c: Config, s: Sys, step: Step, id: Id, lost: nat, joined: nat)
    requires Enabled(c, s, step) && (step.Query? || step.Range?) && Bounded(s, id, lost, joined)
    ensures Bounded(Apply(c, s, step), id, lost, joined)
  {
    var t := Apply(c, s, step);
    if s.work[step.w].id != id {
      OthersStay(s, t, step.w, id);
      SameMoversBounded(s, t, id, lost, joined);
    } else if step.w in Movers(t, id) {
      MoverStays(s, t, step.w, id);
    } else {
      MoverLeaves(s, t, step.w, id);
    }
  }

  lemma AckKeepsBounded(c: Config, s: Sys, step: Step, id: Id, lost: nat, joined: nat)
    requires Enabled(c, s, step) && step.Ack? && Bounded(s, id, lost, joined)
    ensures Bounded(Apply(c, s, step), id, lost, joined)
  {
    var t := Apply(c, s, step);
    if step.w in Movers(s, id) {
      MoverLeaves(s, t, step.w, id);
    } else {
      OthersStay(s, t, step.w, id);
      SameMoversBounded(s, t, id, lost, joined);
    }
  }

  lemma OtherStepKeepsBounded(c: Config, s: Sys, step: Step, id: Id, lost: nat, joined: nat)
    requires Enabled(c, s, step) && Bounded(s, id, lost, joined)
    requires step.Add? || step.Trim? || step.Read? || step.Skip? || step.Run?
    ensures Bounded(Apply(c, s, step), id, lost, joined)
  {
    if step.Read? || step.Run? {
      OthersStay(s, Apply(c, s, step), step.w, id);
    }
    SameMoversBounded(s, Apply(c, s, step), id, lost, joined);
  }

  lemma StepKeepsBounded(c: Config, s: Sys, step: Step, id: Id, lost: nat, joined: nat)
    requires Enabled(c, s, step) && Bounded(s, id, lost, joined)
    ensures Bounded(Apply(c, s, step), id, lost + (if LosesBurial(s, step, id) then 1 else 0),
                    joined + if Joins(s, step, id) then 1 else 0)
  {
    if step.Bury? {
      BuryKeepsBounded(c, s, step, id, lost, joined);
    } else if step.Crash? {
      CrashKeepsBounded(c, s, step, id, lost, joined);
    } else if step.AutoClaim? || step.List? {
      TakeKeepsBounded(c, s, step, id, lost, joined);
    } else if step.Query? || step.Range? {
      MoveKeepsBounded(c, s, step, id, lost, joined);
    } else if step.Ack? {
      AckKeepsBounded(c, s, step, id, lost, joined);
    } else {
      OtherStepKeepsBounded(c, s, step, id, lost, joined);
    }
  }

  lemma {:induction false} RunKeepsBounded(c: Config, s: Sys, steps: seq<Step>, t: Sys, id: Id, lost: nat, joined: nat)
    requires Bounded(s, id, lost, joined) && Runs(c, s, steps, t)
    ensures Bounded(t, id, lost + LostBurials(c, s, steps, id), joined + Joined(c, s, steps, id))
    decreases steps
  {
    if steps != [] {
      StepKeepsBounded(c, s, steps[0], id, lost, joined);
      RunKeepsBounded(c, Apply(c, s, steps[0]), steps[1..], t, id, lost + (if LosesBurial(s, steps[0], id) then 1 else 0),
                      joined + if Joins(s, steps[0], id) then 1 else 0);
    }
  }

  /**
   In every run, each entry is copied at most once, plus once for each crash between its copy
   and its acknowledgement, plus once for each time a worker took it up while another one was
   moving it. What happens to other entries does not matter.
   */
  lemma CopiesAreBounded(c: Config, steps: seq<Step>, t: Sys, id: Id)
    requires Runs(c, EMPTY, steps, t)
    ensures Copies(t.dead, id) <= 1 + LostBurials(c, EMPTY, steps, id) + Joined(c, EMPTY, steps, id)
  {
    assert Movers(EMPTY, id) == {};
    RunKeepsBounded(c, EMPTY, steps, t, id, 0, 0);
    CardinalityAtMost(Copiers(t, id), Movers(t, id));
  }

  lemma CardinalityAtMost(ws: set<nat>, vs: set<nat>)
    requires ws <= vs
    ensures |ws| <= |vs|
  {
    assert vs == ws + (vs - ws);
  }

  // ----- the bound is reached -----

  const POISON := Config(1, true)

  predicate NoCrash(steps: seq<Step>) {
    forall step | step in steps :: !step.Crash?
  }

  /** A run, with how many copies of entry 0 it lost and how many workers joined in. */
  ghost predicate Moves(s: Sys, steps: seq<Step>, t: Sys, lost: nat, joined: nat) {
    Runs(POISON, s, steps, t) && LostBurials(POISON, s, steps, 0) == lost && Joined(POISON, s, steps, 0) == joined
  }

  lemma One(s: Sys, step: Step)
    requires Enabled(POISON, s, step)
    ensures Moves(s, [step], Apply(POISON, s, step), if LosesBurial(s, step, 0) then 1 else 0, if Joins(s, step, 0) then 1 else 0)
  {
    assert [step][1..] == [];
  }

  lemma {:induction false} Together(s: Sys, steps: seq<Step>, t: Sys, lost: nat, joined: nat,
                                    more: seq<Step>, u: Sys, lostToo: nat, joinedToo: nat)
    requires Moves(s, steps, t, lost, joined) && Moves(t, more, u, lostToo, joinedToo)
    ensures Moves(s, steps + more, u, lost + lostToo, joined + joinedToo)
    decreases steps
  {
    if steps == [] {
      assert steps + more == more;
    } else {
      var next := Apply(POISON, s, steps[0]);
      assert (steps + more)[1..] == steps[1..] + more;
      Together(next, steps[1..], t, LostBurials(POISON, next, steps[1..], 0), Joined(POISON, next, steps[1..], 0),
               more, u, lostToo, joinedToo);
    }
  }

  function Buriers(n: nat): (work: map<nat, Work>)
    ensures forall w :: w in work <==> 0 <= w < n
    ensures forall w | w in work :: work[w] == Buried(0, true)
  {
    if n == 0 then map[] else Buriers(n - 1)[n - 1 := Buried(0, true)]
  }

  /** One entry, delivered, run and failed once, and copied as often as listed so far, by n workers still at it. */
  function Failed(copies: seq<Id>, n: nat): Sys {
    EMPTY.(added := 1, delivered := 1, pel := map[0 := 1], ran := map[0 := {1}], attempts := map[0 := 1], dead := copies,
           work := Buriers(n))
  }

  lemma FirstFailure() returns (steps: seq<Step>)
    ensures Moves(EMPTY, steps, Failed([], 0), 0, 0) && NoCrash(steps)
  {
    var s1 := EMPTY.(added := 1);
    var s2 := s1.(delivered := 1, pel := map[0 := 1], work := map[0 := Ready(0, 1, true)]);
    assert Numbers(s2.ran, 0) + {1} == {1};
    assert Apply(POISON, s2, Run(0, false)) == Failed([], 0);
    One(EMPTY, Add);
    One(s1, Read(0));
    One(s2, Run(0, false));
    Together(EMPTY, [Add], s1, 0, 0, [Read(0)], s2, 0, 0);
    Together(EMPTY, [Add] + [Read(0)], s2, 0, 0, [Run(0, false)], Failed([], 0), 0, 0);
    steps := [Add] + [Read(0)] + [Run(0, false)];
  }

  /** Worker n moves the entry too: it has joined in if another one is still at it. */
  lemma OneMoreMover(copies: seq<Id>, n: nat) returns (steps: seq<Step>)
    ensures Moves(Failed(copies, n), steps, Failed(copies + [0], n + 1), 0, if n > 0 then 1 else 0) && NoCrash(steps)
  {
    var s0 := Failed(copies, n);
    var s1, s2 := s0.(work := s0.work[n := Listed(0)]), s0.(work := s0.work[n := Doomed(0, true)]);
    assert n > 0 ==> 0 in Movers(s0, 0);
    assert Apply(POISON, s2, Bury(n)) == Failed(copies + [0], n + 1);
    One(s0, List(n, 0));
    One(s1, Range(n));
    One(s2, Bury(n));
    Together(s0, [List(n, 0)], s1, 0, if n > 0 then 1 else 0, [Range(n)], s2, 0, 0);
    Together(s0, [List(n, 0)] + [Range(n)], s2, 0, if n > 0 then 1 else 0, [Bury(n)], Failed(copies + [0], n + 1), 0, 0);
    steps := [List(n, 0)] + [Range(n)] + [Bury(n)];
  }

  lemma BuryAndCrash(copies: seq<Id>) returns (steps: seq<Step>)
    ensures Moves(Failed(copies, 0), steps, Failed(copies + [0], 0), 1, 0)
  {
    var bury := OneMoreMover(copies, 0);
    assert Apply(POISON, Failed(copies + [0], 1), Crash(0)) == Failed(copies + [0], 0);
    One(Failed(copies + [0], 1), Crash(0));
    Together(Failed(copies, 0), bury, Failed(copies + [0], 1), 0, 0, [Crash(0)], Failed(copies + [0], 0), 1, 0);
    steps := bury + [Crash(0)];
  }

  /** Each crash between copy and acknowledgement leaves a copy, with the entry still pending. */
  lemma {:induction false} EachCrashCopies(lost: nat) returns (steps: seq<Step>, copies: seq<Id>)
    ensures Moves(EMPTY, steps, Failed(copies, 0), lost, 0) && Copies(copies, 0) == lost && (lost == 0 ==> NoCrash(steps))
  {
    if lost == 0 {
      steps := FirstFailure();
      copies := [];
    } else {
      var before, made := EachCrashCopies(lost - 1);
      var more := BuryAndCrash(made);
      OneMoreCopy(made, 0, 0);
      Together(EMPTY, before, Failed(made, 0), lost - 1, 0, more, Failed(made + [0], 0), 1, 0);
      steps, copies := before + more, made + [0];
    }
  }

  /** After that, each further mover leaves a copy. */
  lemma {:induction false} EachMoverCopies(lost: nat, movers: nat) returns (steps: seq<Step>, copies: seq<Id>)
    ensures Moves(EMPTY, steps, Failed(copies, movers), lost, if movers == 0 then 0 else movers - 1)
    ensures Copies(copies, 0) == lost + movers && (lost == 0 ==> NoCrash(steps))
  {
    if movers == 0 {
      steps, copies := EachCrashCopies(lost);
    } else {
      var before, made := EachMoverCopies(lost, movers - 1);
      var more := OneMoreMover(made, movers - 1);
      OneMoreCopy(made, 0, 0);
      Together(EMPTY, before, Failed(made, movers - 1), lost, if movers == 1 then 0 else movers - 2,
               more, Failed(made + [0], movers), 0, if movers > 1 then 1 else 0);
      steps, copies := before + more, made + [0];
    }
  }

  /**
   So the bound is reached, for every number of such crashes and of workers that join in;
   without any crash by the workers alone.
   */
  lemma CopiesReachTheBound(lost: nat, joined: nat)
    ensures exists steps, t :: Moves(EMPTY, steps, t, lost, joined) && Copies(t.dead, 0) == 1 + lost + joined
                               && (lost == 0 ==> NoCrash(steps))
  {
    var steps, copies := EachMoverCopies(lost, joined + 1);
    assert Copies(Failed(copies, joined + 1).dead, 0) == 1 + lost + joined;
  }
}
