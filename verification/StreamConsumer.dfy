/**
 The loops of triage over its stream, run by one worker while nobody else runs: each is
 proved to do what it is for, and to be a run of the protocol of StreamProtocol, so the
 results about every interleaving apply to it.
 */
module StreamConsumer {
  import opened Basics
  import opened StreamProtocol

  // ----- the sweep over a listing, as values -----

  /** One overdue entry acknowledged, and copied to the dead stream first if it still exists. */
  function Moved(s: Sys, id: Id): Sys {
    s.(pel := s.pel - {id}, dead := s.dead + Copy(s, id))
  }

  function Copy(s: Sys, id: Id): seq<Id> {
    if id in s.trimmed then [] else [id]
  }

  /** The listing is a snapshot: its own delivery counts decide. */
  function SweepRow(c: Config, listing: map<Id, nat>, s: Sys, id: Id): Sys
    requires id in listing
  {
    if listing[id] >= c.maxDeliveries then Moved(s, id) else s
  }

  function Swept(c: Config, listing: map<Id, nat>, s: Sys, rows: seq<Id>): Sys
    requires forall id | id in rows :: id in listing
    decreases rows
  {
    if rows == [] then s else Swept(c, listing, SweepRow(c, listing, s, rows[0]), rows[1..])
  }

  function Overdue(c: Config, listing: map<Id, nat>, rows: seq<Id>): seq<Id>
    requires forall id | id in rows :: id in listing
  {
    if rows == [] then []
    else if listing[rows[0]] >= c.maxDeliveries then [rows[0]] + Overdue(c, listing, rows[1..])
    else Overdue(c, listing, rows[1..])
  }

  function Surviving(ids: seq<Id>, trimmed: set<Id>): seq<Id> {
    if ids == [] then []
    else if ids[0] in trimmed then Surviving(ids[1..], trimmed)
    else [ids[0]] + Surviving(ids[1..], trimmed)
  }

  lemma {:induction false} SweptPending(c: Config, listing: map<Id, nat>, s: Sys, rows: seq<Id>)
    requires forall id | id in rows :: id in listing
    ensures var t := Swept(c, listing, s, rows);
            && t == s.(pel := t.pel, dead := t.dead)
            && (forall id :: id in t.pel <==> id in s.pel && !(id in rows && listing[id] >= c.maxDeliveries))
            && (forall id | id in t.pel :: t.pel[id] == s.pel[id])
    decreases rows
  {
    if rows != [] {
      SweptPending(c, listing, SweepRow(c, listing, s, rows[0]), rows[1..]);
      assert rows == [rows[0]] + rows[1..];
    }
  }

  lemma {:induction false} SweptDead(c: Config, listing: map<Id, nat>, s: Sys, rows: seq<Id>)
    requires forall id | id in rows :: id in listing
    ensures Swept(c, listing, s, rows).dead == s.dead + Surviving(Overdue(c, listing, rows), s.trimmed)
    decreases rows
  {
    if rows == [] {
      assert s.dead + [] == s.dead;
    } else {
      var next := SweepRow(c, listing, s, rows[0]);
      SweptDead(c, listing, next, rows[1..]);
      if listing[rows[0]] >= c.maxDeliveries {
        var later := Overdue(c, listing, rows[1..]);
        assert ([rows[0]] + later)[1..] == later;
        assert Surviving([rows[0]] + later, s.trimmed) == Copy(s, rows[0]) + Surviving(later, s.trimmed);
        assert s.dead + (Copy(s, rows[0]) + Surviving(later, s.trimmed)) == next.dead + Surviving(later, s.trimmed);
      }
    }
  }

  /** Exactly the overdue rows leave the pending list; their surviving payloads are copied, in order. */
  lemma SweptMeans(c: Config, listing: map<Id, nat>, s: Sys, rows: seq<Id>)
    requires forall id | id in rows :: id in listing
    ensures var t := Swept(c, listing, s, rows);
            && t == s.(pel := t.pel, dead := s.dead + Surviving(Overdue(c, listing, rows), s.trimmed))
            && (forall id :: id in t.pel <==> id in s.pel && !(id in rows && listing[id] >= c.maxDeliveries))
            && (forall id | id in t.pel :: t.pel[id] == s.pel[id])
  {
    SweptPending(c, listing, s, rows);
    SweptDead(c, listing, s, rows);
  }

  /** The listed entries at the limit whose payload still exists. */
  ghost function CopiedIds(c: Config, listing: map<Id, nat>, rows: seq<Id>, trimmed: set<Id>): set<Id>
    requires forall id | id in rows :: id in listing
  {
    set id | id in rows && listing[id] >= c.maxDeliveries && id !in trimmed
  }

  lemma {:induction false} CopiesMean(c: Config, listing: map<Id, nat>, rows: seq<Id>, trimmed: set<Id>)
    requires NoRepeats(rows) && forall id | id in rows :: id in listing
    ensures multiset(Surviving(Overdue(c, listing, rows), trimmed)) == multiset(CopiedIds(c, listing, rows, trimmed))
    ensures |Surviving(Overdue(c, listing, rows), trimmed)| == |CopiedIds(c, listing, rows, trimmed)|
  {
    if rows != [] {
      NoRepeatsRest(rows);
      CopiesMean(c, listing, rows[1..], trimmed);
      var here, rest := CopiedIds(c, listing, rows, trimmed), CopiedIds(c, listing, rows[1..], trimmed);
      if listing[rows[0]] >= c.maxDeliveries {
        assert ([rows[0]] + Overdue(c, listing, rows[1..]))[1..] == Overdue(c, listing, rows[1..]);
      }
      assert here == if listing[rows[0]] >= c.maxDeliveries && rows[0] !in trimmed then {rows[0]} + rest else rest;
    }
  }

  lemma BuryThenAck(c: Config, s: Sys, w: nat, id: Id)
    requires w !in s.work && id in s.pel
    ensures Runs(c, s.(work := s.work[w := Doomed(id, id !in s.trimmed)]), [Bury(w), Ack(w)], Moved(s, id))
  {
    var doomed := s.(work := s.work[w := Doomed(id, id !in s.trimmed)]);
    var buried := Apply(c, doomed, Bury(w));
    assert Apply(c, buried, Ack(w)) == Moved(s, id);
    RunsOne(c, buried, [Ack(w)], Moved(s, id));
    RunsOne(c, doomed, [Bury(w), Ack(w)], Moved(s, id));
  }

  lemma RangeFirst(c: Config, s: Sys, w: nat, id: Id, steps: seq<Step>, t: Sys)
    requires Runs(c, s.(work := s.work[w := Doomed(id, id !in s.trimmed)]), steps, t)
    ensures Runs(c, s.(work := s.work[w := Listed(id)]), [Range(w)] + steps, t)
  {
    var listed := s.(work := s.work[w := Listed(id)]);
    assert Apply(c, listed, Range(w)) == s.(work := s.work[w := Doomed(id, id !in s.trimmed)]);
    RunsOne(c, listed, [Range(w)] + steps, t);
  }

  lemma MoveIsARun(c: Config, s: Sys, w: nat, id: Id)
    requires Enabled(c, s, List(w, id))
    ensures Runs(c, s, [List(w, id), Range(w), Bury(w), Ack(w)], Moved(s, id))
  {
    BuryThenAck(c, s, w, id);
    RangeFirst(c, s, w, id, [Bury(w), Ack(w)], Moved(s, id));
    RunsOne(c, s, [List(w, id), Range(w), Bury(w), Ack(w)], Moved(s, id));
  }

  /** The sweep is a run of the protocol: List, Range, Bury, Ack per overdue row. */
  lemma {:induction false} SweepIsARun(c: Config, listing: map<Id, nat>, s: Sys, rows: seq<Id>, w: nat)
    returns (steps: seq<Step>)
    requires NoRepeats(rows) && w !in s.work
    requires forall id | id in rows :: id in listing && id in s.pel && s.pel[id] == listing[id]
    ensures Runs(c, s, steps, Swept(c, listing, s, rows))
    decreases rows
  {
    if rows == [] {
      return [];
    }
    NoRepeatsRest(rows);
    var next := SweepRow(c, listing, s, rows[0]);
    steps := SweepIsARun(c, listing, next, rows[1..], w);
    if listing[rows[0]] >= c.maxDeliveries {
      MoveIsARun(c, s, w, rows[0]);
      RunsAppend(c, s, [List(w, rows[0]), Range(w), Bury(w), Ack(w)], next, steps, Swept(c, listing, s, rows));
      steps := [List(w, rows[0]), Range(w), Bury(w), Ack(w)] + steps;
    }
  }

  // ----- one reclaimed entry, as values -----

  /** The pending query answers "over the limit", and there is a dead stream to move the entry to. */
  predicate Over(c: Config, deliveries: nat, fails: bool) {
    !fails && deliveries >= c.maxDeliveries && c.hasDeadStream
  }

  /** XAUTOCLAIM of a batch: each claimed entry counts one more delivery. */
  function ClaimAll(s: Sys, ids: seq<Id>): Sys {
    s.(pel := map id | id in s.pel :: if id in ids then s.pel[id] + 1 else s.pel[id])
  }

  /** The query's failure, if it failed, noted in the history. */
  function Queried(s: Sys, id: Id, fails: bool): Sys
    requires id in s.pel
  {
    if fails then s.(blind := s.blind[id := Numbers(s.blind, id) + {s.pel[id]}]) else s
  }

  /** One run of the pipeline on a pending entry, acknowledged if it succeeded. */
  function Tried(s: Sys, id: Id, succeeds: bool): Sys
    requires id in s.pel
  {
    var ran := s.(ran := s.ran[id := Numbers(s.ran, id) + {s.pel[id]}], attempts := s.attempts[id := Attempts(s, id) + 1]);
    if succeeds then ran.(processed := s.processed + {id}, pel := s.pel - {id}) else ran
  }

  /** A claimed entry: the pending query, then the dead stream or the pipeline. */
  function SettleOne(c: Config, s: Sys, id: Id, fails: bool, succeeds: bool): Sys
    requires id in s.pel
  {
    var t := Queried(s, id, fails);
    if Over(c, t.pel[id], fails) then Moved(t, id) else Tried(t, id, succeeds && id !in s.trimmed)
  }

  /** What became of an entry whose delivery count reached `deliveries` when it was reclaimed. */
  ghost predicate Settled(c: Config, s: Sys, id: Id, deliveries: nat, fails: bool, succeeds: bool) {
    if !fails && deliveries >= c.maxDeliveries && c.hasDeadStream then id !in s.pel && (id !in s.trimmed ==> id in s.dead)
    else if succeeds && id !in s.trimmed then id !in s.pel && id in s.processed
    else id in s.pel && s.pel[id] == deliveries
  }

  /** The entries of a claimed batch, one after the other. */
  function Reclaimed(c: Config, s: Sys, ids: seq<Id>, fails: seq<bool>, succeeds: seq<bool>): Sys
    requires |ids| == |fails| == |succeeds| && NoRepeats(ids) && forall id | id in ids :: id in s.pel
    decreases ids
  {
    if ids == [] then s
    else
      NoRepeatsRest(ids);
      Reclaimed(c, SettleOne(c, s, ids[0], fails[0], succeeds[0]), ids[1..], fails[1..], succeeds[1..])
  }

  ghost predicate OnlyGrows(s: Sys, t: Sys) {
    && t.added == s.added && t.delivered == s.delivered && t.trimmed == s.trimmed && t.work == s.work
    && s.processed <= t.processed
    && (forall d | d in s.dead :: d in t.dead)
  }

  lemma SettleOneMeans(c: Config, s: Sys, id: Id, fails: bool, succeeds: bool)
    requires id in s.pel
    ensures var t := SettleOne(c, s, id, fails, succeeds);
            && OnlyGrows(s, t)
            && (forall d | d != id :: (d in t.pel <==> d in s.pel) && (d in t.pel ==> t.pel[d] == s.pel[d]))
            && Settled(c, t, id, s.pel[id], fails, succeeds)
  {
  }

  /** Later entries of the batch leave a settled one alone. */
  lemma SettledStays(c: Config, s: Sys, t: Sys, id: Id, deliveries: nat, fails: bool, succeeds: bool)
    requires Settled(c, s, id, deliveries, fails, succeeds) && OnlyGrows(s, t)
    requires (id in t.pel <==> id in s.pel) && (id in t.pel ==> t.pel[id] == s.pel[id])
    ensures Settled(c, t, id, deliveries, fails, succeeds)
  {
  }

  ghost predicate Untouched(s: Sys, t: Sys, ids: seq<Id>) {
    forall id | id !in ids :: (id in t.pel <==> id in s.pel) && (id in t.pel ==> t.pel[id] == s.pel[id])
  }

  ghost predicate AllSettled(c: Config, s: Sys, t: Sys, ids: seq<Id>, fails: seq<bool>, succeeds: seq<bool>)
    requires |ids| == |fails| == |succeeds| && forall id | id in ids :: id in s.pel
  {
    forall i | 0 <= i < |ids| :: Settled(c, t, ids[i], s.pel[ids[i]], fails[i], succeeds[i])
  }

  /** Everything in the batch is settled by its own answers, and nothing else changes. */
  lemma {:induction false} ReclaimedMeans(c: Config, s: Sys, ids: seq<Id>, fails: seq<bool>, succeeds: seq<bool>)
    requires |ids| == |fails| == |succeeds| && NoRepeats(ids) && forall id | id in ids :: id in s.pel
    ensures var t := Reclaimed(c, s, ids, fails, succeeds);
            OnlyGrows(s, t) && Untouched(s, t, ids) && AllSettled(c, s, t, ids, fails, succeeds)
    decreases ids
  {
    if ids != [] {
      NoRepeatsRest(ids);
      var next := SettleOne(c, s, ids[0], fails[0], succeeds[0]);
      var t := Reclaimed(c, s, ids, fails, succeeds);
      SettleOneMeans(c, s, ids[0], fails[0], succeeds[0]);
      ReclaimedMeans(c, next, ids[1..], fails[1..], succeeds[1..]);
      SettledStays(c, next, t, ids[0], s.pel[ids[0]], fails[0], succeeds[0]);
      RestSettled(c, s, next, t, ids, fails, succeeds);
    }
  }

  lemma RestSettled(c: Config, s: Sys, next: Sys, t: Sys, ids: seq<Id>, fails: seq<bool>, succeeds: seq<bool>)
    requires |ids| == |fails| == |succeeds| && ids != [] && forall id | id in ids :: id in s.pel
    requires forall id | id in ids[1..] :: id in next.pel && next.pel[id] == s.pel[id]
    requires AllSettled(c, next, t, ids[1..], fails[1..], succeeds[1..])
    requires Settled(c, t, ids[0], s.pel[ids[0]], fails[0], succeeds[0])
    ensures AllSettled(c, s, t, ids, fails, succeeds)
  {
  }

  // ----- what a batch leaves, exactly -----

  /** The entries of a batch that go to the dead stream, when entry id was delivered pel[id] + more times. */
  ghost function BuriedIds(c: Config, pel: map<Id, nat>, more: nat, trimmed: set<Id>, ids: seq<Id>, fails: seq<bool>): set<Id>
    requires |ids| == |fails| && forall id | id in ids :: id in pel
  {
    set i | 0 <= i < |ids| && !fails[i] && pel[ids[i]] + more >= c.maxDeliveries && c.hasDeadStream && ids[i] !in trimmed :: ids[i]
  }

  /** Those whose run succeeds. */
  ghost function HandledIds(c: Config, pel: map<Id, nat>, more: nat, trimmed: set<Id>, ids: seq<Id>, fails: seq<bool>,
                            succeeds: seq<bool>): set<Id>
    requires |ids| == |fails| == |succeeds| && forall id | id in ids :: id in pel
  {
    set i | && 0 <= i < |ids| && (fails[i] || pel[ids[i]] + more < c.maxDeliveries || !c.hasDeadStream)
            && succeeds[i] && ids[i] !in trimmed :: ids[i]
  }

  lemma BuriedSplits(c: Config, pel: map<Id, nat>, more: nat, trimmed: set<Id>, ids: seq<Id>, fails: seq<bool>)
    requires |ids| == |fails| && ids != [] && NoRepeats(ids) && forall id | id in ids :: id in pel
    ensures var rest := BuriedIds(c, pel, more, trimmed, ids[1..], fails[1..]);
            && ids[0] !in rest
            && BuriedIds(c, pel, more, trimmed, ids, fails)
            == if !fails[0] && pel[ids[0]] + more >= c.maxDeliveries && c.hasDeadStream && ids[0] !in trimmed then {ids[0]} + rest else rest
  {
    var all, rest := BuriedIds(c, pel, more, trimmed, ids, fails), BuriedIds(c, pel, more, trimmed, ids[1..], fails[1..]);
    forall id | id in rest
      ensures id in all && id != ids[0]
    {
      var i :| 0 <= i < |ids[1..]| && ids[1..][i] == id && !fails[1..][i] && pel[id] + more >= c.maxDeliveries
               && c.hasDeadStream && id !in trimmed;
      assert ids[i + 1] == id && !fails[i + 1];
    }
    forall id | id in all && id != ids[0]
      ensures id in rest
    {
      var i :| 0 <= i < |ids| && ids[i] == id && !fails[i] && pel[id] + more >= c.maxDeliveries && c.hasDeadStream && id !in trimmed;
      assert ids[1..][i - 1] == id && !fails[1..][i - 1];
    }
    assert !fails[0] && pel[ids[0]] + more >= c.maxDeliveries && c.hasDeadStream && ids[0] !in trimmed ==> ids[0] in all;
    assert all == if ids[0] in all then {ids[0]} + rest else rest;
  }

  lemma HandledSplits(c: Config, pel: map<Id, nat>, more: nat, trimmed: set<Id>, ids: seq<Id>, fails: seq<bool>, succeeds: seq<bool>)
    requires |ids| == |fails| == |succeeds| && ids != [] && NoRepeats(ids) && forall id | id in ids :: id in pel
    ensures var rest := HandledIds(c, pel, more, trimmed, ids[1..], fails[1..], succeeds[1..]);
            && ids[0] !in rest
            && HandledIds(c, pel, more, trimmed, ids, fails, succeeds)
            == if (fails[0] || pel[ids[0]] + more < c.maxDeliveries || !c.hasDeadStream) && succeeds[0] && ids[0] !in trimmed
               then {ids[0]} + rest else rest
  {
    var all := HandledIds(c, pel, more, trimmed, ids, fails, succeeds);
    var rest := HandledIds(c, pel, more, trimmed, ids[1..], fails[1..], succeeds[1..]);
    forall id | id in rest
      ensures id in all && id != ids[0]
    {
      var i :| 0 <= i < |ids[1..]| && ids[1..][i] == id && (fails[1..][i] || pel[id] + more < c.maxDeliveries || !c.hasDeadStream)
               && succeeds[1..][i] && id !in trimmed;
      assert ids[i + 1] == id && fails[i + 1] == fails[1..][i] && succeeds[i + 1];
    }
    forall id | id in all && id != ids[0]
      ensures id in rest
    {
      var i :| 0 <= i < |ids| && ids[i] == id && (fails[i] || pel[id] + more < c.maxDeliveries || !c.hasDeadStream)
               && succeeds[i] && id !in trimmed;
      assert ids[1..][i - 1] == id && fails[1..][i - 1] == fails[i] && succeeds[1..][i - 1];
    }
    assert all == if ids[0] in all then {ids[0]} + rest else rest;
  }

  /** Only these depend on the batch's own delivery counts. */
  lemma IdsDepend(c: Config, pel: map<Id, nat>, other: map<Id, nat>, more: nat, than: nat, trimmed: set<Id>, ids: seq<Id>,
                  fails: seq<bool>, succeeds: seq<bool>)
    requires |ids| == |fails| == |succeeds|
    requires forall id | id in ids :: id in pel && id in other && pel[id] + more == other[id] + than
    ensures BuriedIds(c, pel, more, trimmed, ids, fails) == BuriedIds(c, other, than, trimmed, ids, fails)
    ensures HandledIds(c, pel, more, trimmed, ids, fails, succeeds) == HandledIds(c, other, than, trimmed, ids, fails, succeeds)
  {
  }

  /** Exactly the buried entries are copied, once each; exactly the handled ones are processed. */
  lemma {:induction false} ReclaimedExactly(c: Config, s: Sys, ids: seq<Id>, fails: seq<bool>, succeeds: seq<bool>)
    requires |ids| == |fails| == |succeeds| && NoRepeats(ids) && forall id | id in ids :: id in s.pel
    ensures Ends(s, Reclaimed(c, s, ids, fails, succeeds), BuriedIds(c, s.pel, 0, s.trimmed, ids, fails),
                 HandledIds(c, s.pel, 0, s.trimmed, ids, fails, succeeds))
    decreases ids
  {
    if ids != [] {
      NoRepeatsRest(ids);
      var next := SettleOne(c, s, ids[0], fails[0], succeeds[0]);
      SettleOneMeans(c, s, ids[0], fails[0], succeeds[0]);
      ReclaimedExactly(c, next, ids[1..], fails[1..], succeeds[1..]);
      IdsDepend(c, next.pel, s.pel, 0, 0, s.trimmed, ids[1..], fails[1..], succeeds[1..]);
      BuriedSplits(c, s.pel, 0, s.trimmed, ids, fails);
      HandledSplits(c, s.pel, 0, s.trimmed, ids, fails, succeeds);
      var buried := BuriedIds(c, s.pel, 0, s.trimmed, ids[1..], fails[1..]);
      var handled := HandledIds(c, s.pel, 0, s.trimmed, ids[1..], fails[1..], succeeds[1..]);
      EndsOneMore(c, s, next, Reclaimed(c, s, ids, fails, succeeds), ids[0], fails[0], succeeds[0], buried, handled);
    } else {
      assert BuriedIds(c, s.pel, 0, s.trimmed, ids, fails) == {} && HandledIds(c, s.pel, 0, s.trimmed, ids, fails, succeeds) == {};
    }
  }

  /** The buried entries were copied to the dead stream, once each, and the handled ones processed. */
  ghost predicate Ends(s: Sys, t: Sys, buried: set<Id>, handled: set<Id>) {
    multiset(t.dead) == multiset(s.dead) + multiset(buried) && t.processed == s.processed + handled
  }

  lemma EndsOneMore(c: Config, s: Sys, next: Sys, t: Sys, id: Id, fails: bool, succeeds: bool, buried: set<Id>, handled: set<Id>)
    requires id in s.pel && next == SettleOne(c, s, id, fails, succeeds) && Ends(next, t, buried, handled)
    requires id !in buried && id !in handled
    ensures Ends(s, t, if Over(c, s.pel[id], fails) && id !in s.trimmed then {id} + buried else buried,
                 if !Over(c, s.pel[id], fails) && succeeds && id !in s.trimmed then {id} + handled else handled)
  {
    assert multiset({id} + buried) == multiset{id} + multiset(buried);
    assert multiset(s.dead + [id]) == multiset(s.dead) + multiset{id};
    assert s.dead + [] == s.dead;
  }

  lemma {:induction false} SuccessesMean(c: Config, s: Sys, ids: seq<Id>, fails: seq<bool>, succeeds: seq<bool>)
    requires |ids| == |fails| == |succeeds| && NoRepeats(ids) && forall id | id in ids :: id in s.pel
    ensures Successes(c, s, ids, fails, succeeds) == |HandledIds(c, s.pel, 0, s.trimmed, ids, fails, succeeds)|
    decreases ids
  {
    if ids != [] {
      NoRepeatsRest(ids);
      SuccessesMean(c, s, ids[1..], fails[1..], succeeds[1..]);
      HandledSplits(c, s.pel, 0, s.trimmed, ids, fails, succeeds);
    }
  }

  // ----- the reclaim of a batch is a run of the protocol -----

  /** The batch in hand: entry i is held in slot w + i. */
  function Held(s: Sys, ids: seq<Id>, w: nat): Sys
    requires forall id | id in ids :: id in s.pel
    decreases ids
  {
    if ids == [] then s
    else Hold(Held(s, ids[1..], w + 1), w, Claimed(ids[0], s.pel[ids[0]], ids[0] !in s.trimmed))
  }

  function Hold(s: Sys, w: nat, k: Work): Sys {
    s.(work := s.work[w := k])
  }

  lemma {:induction false} HeldIsS(s: Sys, ids: seq<Id>, w: nat)
    requires forall id | id in ids :: id in s.pel
    ensures Held(s, ids, w) == s.(work := Held(s, ids, w).work)
    ensures forall v | v < w :: v in Held(s, ids, w).work <==> v in s.work
    decreases ids
  {
    if ids != [] {
      HeldIsS(s, ids[1..], w + 1);
    }
  }

  lemma {:induction false} HeldHolds(s: Sys, ids: seq<Id>, w: nat, v: nat, k: Work)
    requires v < w && forall id | id in ids :: id in s.pel
    ensures Held(Hold(s, v, k), ids, w) == Hold(Held(s, ids, w), v, k)
    decreases ids
  {
    if ids != [] {
      HeldHolds(s, ids[1..], w + 1, v, k);
      var t, own := Held(s, ids[1..], w + 1), Claimed(ids[0], s.pel[ids[0]], ids[0] !in s.trimmed);
      assert t.work[v := k][w := own] == t.work[w := own][v := k];
    }
  }

  function Claims(ids: seq<Id>, w: nat): seq<Step> {
    if ids == [] then [] else [AutoClaim(w, ids[0])] + Claims(ids[1..], w + 1)
  }

  function ClaimFirst(s: Sys, w: nat, id: Id): Sys
    requires id in s.pel
  {
    Hold(s.(pel := s.pel[id := s.pel[id] + 1]), w, Claimed(id, s.pel[id] + 1, id !in s.trimmed))
  }

  lemma ClaimAllSplits(s: Sys, ids: seq<Id>)
    requires NoRepeats(ids) && ids != [] && forall id | id in ids :: id in s.pel
    ensures ClaimAll(s, ids) == ClaimAll(s.(pel := s.pel[ids[0] := s.pel[ids[0]] + 1]), ids[1..])
  {
  }

  lemma HeldSplits(s: Sys, ids: seq<Id>, w: nat)
    requires NoRepeats(ids) && ids != [] && forall id | id in ids :: id in s.pel
    ensures Held(ClaimAll(s, ids), ids, w) == Held(ClaimAll(ClaimFirst(s, w, ids[0]), ids[1..]), ids[1..], w + 1)
  {
    var raised := s.(pel := s.pel[ids[0] := s.pel[ids[0]] + 1]);
    var k := Claimed(ids[0], s.pel[ids[0]] + 1, ids[0] !in s.trimmed);
    ClaimAllSplits(s, ids);
    assert ClaimAll(Hold(raised, w, k), ids[1..]) == Hold(ClaimAll(raised, ids[1..]), w, k);
    HeldHolds(ClaimAll(raised, ids[1..]), ids[1..], w + 1, w, k);
  }

  lemma ClaimFirstIs(c: Config, s: Sys, w: nat, id: Id)
    requires id in s.pel && forall v | v in s.work :: v < w
    ensures Enabled(c, s, AutoClaim(w, id)) && Apply(c, s, AutoClaim(w, id)) == ClaimFirst(s, w, id)
    ensures forall v | v in ClaimFirst(s, w, id).work :: v < w + 1
    ensures forall d | d in s.pel :: d in ClaimFirst(s, w, id).pel
  {
  }

  lemma {:induction false} ClaimIsARun(c: Config, s: Sys, ids: seq<Id>, w: nat)
    requires NoRepeats(ids) && (forall id | id in ids :: id in s.pel) && forall v | v in s.work :: v < w
    ensures Runs(c, s, Claims(ids, w), Held(ClaimAll(s, ids), ids, w))
    decreases ids
  {
    if ids == [] {
      assert ClaimAll(s, ids).pel == s.pel;
    } else {
      NoRepeatsRest(ids);
      HeldSplits(s, ids, w);
      ClaimFirstIs(c, s, w, ids[0]);
      ClaimIsARun(c, ClaimFirst(s, w, ids[0]), ids[1..], w + 1);
      PrependStep(c, s, AutoClaim(w, ids[0]), Claims(ids[1..], w + 1), Held(ClaimAll(s, ids), ids, w));
    }
  }

  lemma {:induction false} BurialIsARun(c: Config, t: Sys, w: nat, id: Id)
    requires w !in t.work
    ensures Runs(c, Hold(t, w, Doomed(id, id !in t.trimmed)), [Bury(w), Ack(w)], Moved(t, id))
  {
  }

  function TrySteps(w: nat, succeeds: bool): seq<Step> {
    if succeeds then [Run(w, true), Ack(w)] else [Run(w, false)]
  }

  lemma RunThenAck(c: Config, t: Sys, w: nat, id: Id, succeeds: bool)
    requires w !in t.work && id in t.pel && (succeeds ==> id !in t.trimmed)
    ensures var s1 := Hold(t, w, Ready(id, t.pel[id], id !in t.trimmed));
            Enabled(c, s1, Run(w, succeeds))
            && var s2 := Apply(c, s1, Run(w, succeeds));
               if succeeds then Enabled(c, s2, Ack(w)) && Apply(c, s2, Ack(w)) == Tried(t, id, true)
               else s2 == Tried(t, id, false)
  {
  }

  lemma {:induction false} TryIsARun(c: Config, t: Sys, w: nat, id: Id, succeeds: bool)
    requires w !in t.work && id in t.pel && (succeeds ==> id !in t.trimmed)
    ensures Runs(c, Hold(t, w, Ready(id, t.pel[id], id !in t.trimmed)), TrySteps(w, succeeds), Tried(t, id, succeeds))
  {
    var s1 := Hold(t, w, Ready(id, t.pel[id], id !in t.trimmed));
    var s2 := Apply(c, s1, Run(w, succeeds));
    RunThenAck(c, t, w, id, succeeds);
    if succeeds {
      RunsOne(c, s2, [Ack(w)], Tried(t, id, true));
      RunsOne(c, s1, [Run(w, true), Ack(w)], Tried(t, id, true));
    } else {
      RunsOne(c, s1, [Run(w, false)], s2);
    }
  }

  function InHand(s: Sys, w: nat, id: Id): Sys
    requires id in s.pel
  {
    Hold(s, w, Claimed(id, s.pel[id], id !in s.trimmed))
  }

  function Decided(c: Config, s: Sys, id: Id, fails: bool): Work
    requires id in s.pel
  {
    if Over(c, s.pel[id], fails) then Doomed(id, id !in s.trimmed) else Ready(id, s.pel[id], id !in s.trimmed)
  }

  lemma QueryStep(c: Config, s: Sys, w: nat, id: Id, fails: bool)
    requires w !in s.work && id in s.pel
    ensures Enabled(c, InHand(s, w, id), Query(w, fails))
    ensures Apply(c, InHand(s, w, id), Query(w, fails)) == Hold(Queried(s, id, fails), w, Decided(c, s, id, fails))
  {
    assert InHand(s, w, id).work[w := Decided(c, s, id, fails)] == s.work[w := Decided(c, s, id, fails)];
  }

  lemma SettleIsARun(c: Config, s: Sys, w: nat, id: Id, fails: bool, succeeds: bool) returns (steps: seq<Step>)
    requires w !in s.work && id in s.pel
    ensures Runs(c, InHand(s, w, id), steps, SettleOne(c, s, id, fails, succeeds))
  {
    var t := Queried(s, id, fails);
    QueryStep(c, s, w, id, fails);
    if Over(c, s.pel[id], fails) {
      BurialIsARun(c, t, w, id);
      steps := [Bury(w), Ack(w)];
    } else {
      TryIsARun(c, t, w, id, succeeds && id !in s.trimmed);
      steps := TrySteps(w, succeeds && id !in s.trimmed);
    }
    PrependStep(c, InHand(s, w, id), Query(w, fails), steps, SettleOne(c, s, id, fails, succeeds));
    steps := [Query(w, fails)] + steps;
  }

  lemma PrependStep(c: Config, s: Sys, step: Step, steps: seq<Step>, t: Sys)
    requires Enabled(c, s, step) && Runs(c, Apply(c, s, step), steps, t)
    ensures Runs(c, s, [step] + steps, t)
  {
  }

  lemma SettleKeepsWork(c: Config, s: Sys, id: Id, fails: bool, succeeds: bool, work: map<nat, Work>)
    requires id in s.pel
    ensures SettleOne(c, s.(work := work), id, fails, succeeds) == SettleOne(c, s, id, fails, succeeds).(work := work)
  {
  }

  /** Settling an entry does not change how the later ones are held. */
  lemma SettleHolds(c: Config, s: Sys, id: Id, fails: bool, succeeds: bool, rest: seq<Id>, w: nat)
    requires id in s.pel && id !in rest && forall d | d in rest :: d in s.pel
    ensures forall d | d in rest :: d in SettleOne(c, s, id, fails, succeeds).pel
    ensures Held(s, rest, w).pel == s.pel
    ensures SettleOne(c, Held(s, rest, w), id, fails, succeeds) == Held(SettleOne(c, s, id, fails, succeeds), rest, w)
  {
    SettleOneMeans(c, s, id, fails, succeeds);
    HeldIsS(s, rest, w);
    SettleKeepsWork(c, s, id, fails, succeeds, Held(s, rest, w).work);
    HeldAfter(s, SettleOne(c, s, id, fails, succeeds), rest, w);
  }

  lemma HeldAfter(s: Sys, next: Sys, ids: seq<Id>, w: nat)
    requires forall id | id in ids :: id in s.pel && id in next.pel && s.pel[id] == next.pel[id]
    requires s.trimmed == next.trimmed && s.work == next.work
    ensures Held(next, ids, w) == next.(work := Held(s, ids, w).work)
  {
  }

  lemma {:induction false} SettlingIsARun(c: Config, s: Sys, ids: seq<Id>, fails: seq<bool>, succeeds: seq<bool>, w: nat)
    returns (steps: seq<Step>)
    requires |ids| == |fails| == |succeeds| && NoRepeats(ids) && forall id | id in ids :: id in s.pel
    requires forall v | v in s.work :: v < w
    ensures Runs(c, Held(s, ids, w), steps, Reclaimed(c, s, ids, fails, succeeds))
    decreases ids
  {
    if ids == [] {
      return [];
    }
    NoRepeatsRest(ids);
    var id, rest := ids[0], ids[1..];
    var inHand, next := Held(s, rest, w + 1), SettleOne(c, s, id, fails[0], succeeds[0]);
    SettleOneMeans(c, s, id, fails[0], succeeds[0]);
    SettleHolds(c, s, id, fails[0], succeeds[0], rest, w + 1);
    HeldIsS(s, rest, w + 1);
    steps := SettlingIsARun(c, next, rest, fails[1..], succeeds[1..], w + 1);
    var first := SettleIsARun(c, inHand, w, id, fails[0], succeeds[0]);
    RunsAppend(c, Held(s, ids, w), first, Held(next, rest, w + 1), steps, Reclaimed(c, s, ids, fails, succeeds));
    steps := first + steps;
  }

  /** Claiming a batch and then settling its entries in order is a run of the protocol. */
  lemma ReclaimIsARun(c: Config, s: Sys, ids: seq<Id>, fails: seq<bool>, succeeds: seq<bool>, w: nat)
    returns (steps: seq<Step>)
    requires |ids| == |fails| == |succeeds| && NoRepeats(ids) && forall id | id in ids :: id in s.pel
    requires forall v | v in s.work :: v < w
    ensures Runs(c, s, steps, Reclaimed(c, ClaimAll(s, ids), ids, fails, succeeds))
  {
    ClaimIsARun(c, s, ids, w);
    steps := SettlingIsARun(c, ClaimAll(s, ids), ids, fails, succeeds, w);
    RunsAppend(c, s, Claims(ids, w), Held(ClaimAll(s, ids), ids, w), steps,
               Reclaimed(c, ClaimAll(s, ids), ids, fails, succeeds));
    steps := Claims(ids, w) + steps;
  }

  /** The entries of a batch whose run succeeds. */
  function Successes(c: Config, s: Sys, ids: seq<Id>, fails: seq<bool>, succeeds: seq<bool>): nat
    requires |ids| == |fails| == |succeeds| && forall id | id in ids :: id in s.pel
    decreases ids
  {
    if ids == [] then 0
    else (if !Over(c, s.pel[ids[0]], fails[0]) && succeeds[0] && ids[0] !in s.trimmed then 1 else 0)
         + Successes(c, s, ids[1..], fails[1..], succeeds[1..])
  }

  /** What the loop over a batch relies on for the entries it has not reached. */
  ghost predicate StillPending(start: Sys, s: Sys, ids: seq<Id>) {
    && NoRepeats(ids) && s.trimmed == start.trimmed
    && (forall id | id in ids :: id in s.pel && id in start.pel && s.pel[id] == start.pel[id])
  }

  lemma NextOfBatch(c: Config, start: Sys, s: Sys, ids: seq<Id>, fails: seq<bool>, succeeds: seq<bool>)
    requires |ids| == |fails| == |succeeds| && ids != [] && StillPending(start, s, ids)
    ensures StillPending(start, SettleOne(c, s, ids[0], fails[0], succeeds[0]), ids[1..])
    ensures Reclaimed(c, s, ids, fails, succeeds)
         == Reclaimed(c, SettleOne(c, s, ids[0], fails[0], succeeds[0]), ids[1..], fails[1..], succeeds[1..])
    ensures Successes(c, start, ids, fails, succeeds)
         == (if !Over(c, s.pel[ids[0]], fails[0]) && succeeds[0] && ids[0] !in s.trimmed then 1 else 0)
            + Successes(c, start, ids[1..], fails[1..], succeeds[1..])
  {
  }

  // ----- the loops -----

  /** The stream connection; `s` is the state of the server, which other clients share. */
  class StreamClient {
    const config: Config
    var s: Sys

    constructor (config: Config)
      ensures this.config == config && s == EMPTY
    {
      this.config, s := config, EMPTY;
    }

    /** XPENDING over the whole range: the first `count` pending ids, in order. */
    method PendingRange(count: nat) returns (rows: seq<Id>)
      requires forall id | id in s.pel :: id < s.delivered
      ensures |rows| <= count && NoRepeats(rows) && forall i, j | 0 <= i < j < |rows| :: rows[i] < rows[j]
      ensures forall id | id in rows :: id in s.pel
      ensures |rows| < count ==> forall id | id in s.pel :: id in rows
      ensures forall id, last | id in s.pel && last in rows && id < last :: id in rows
    {
      rows := [];
      var i := 0;
      while i < s.delivered && |rows| < count
        invariant i <= s.delivered && |rows| <= count && NoRepeats(rows) && forall j, k | 0 <= j < k < |rows| :: rows[j] < rows[k]
        invariant forall id | id in rows :: id in s.pel && id < i
        invariant forall id | id in s.pel && id < i :: id in rows
      {
        if i in s.pel {
          assert forall k | 0 <= k < |rows| :: rows[k] in rows;
          rows := rows + [i];
        }
        i := i + 1;
      }
    }

    /**
     dead_letter_sweep: of the first 200 pending entries, exactly those at or over the
     limit are acknowledged, each copied to the dead stream first unless it was trimmed.
     */
    method DeadLetterSweep(w: nat) returns (moved: nat, ghost rows: seq<Id>, ghost steps: seq<Step>)
      requires w !in s.work && forall id | id in s.pel :: id < s.delivered
      modifies this
      ensures |rows| <= 200 && NoRepeats(rows) && forall id | id in rows :: id in old(s).pel
      ensures |rows| < 200 ==> forall id | id in old(s).pel :: id in rows
      ensures s == Swept(config, old(s).pel, old(s), rows)
      ensures forall id :: id in s.pel <==> id in old(s).pel && !(id in rows && old(s).pel[id] >= config.maxDeliveries)
      ensures s.dead == old(s).dead + Surviving(Overdue(config, old(s).pel, rows), old(s).trimmed)
      ensures moved == |s.dead| - |old(s).dead|
      ensures moved == |CopiedIds(config, old(s).pel, rows, old(s).trimmed)|
      ensures multiset(s.dead) == multiset(old(s).dead) + multiset(CopiedIds(config, old(s).pel, rows, old(s).trimmed))
      ensures Runs(config, old(s), steps, s)
    {
      var pending := PendingRange(200);
      var listing := s.pel;
      rows := pending;
      moved := 0;
      ghost var start := s;
      for i := 0 to |pending|
        invariant Swept(config, listing, s, rows[i..]) == Swept(config, listing, start, rows)
        invariant moved + |start.dead| == |s.dead|
      {
        var id := pending[i];
        assert rows[i..][0] == id && rows[i..][1..] == rows[i + 1..];
        ghost var before := s;
        if listing[id] >= config.maxDeliveries {
          var found := id !in s.trimmed;
          if found {
            s := s.(dead := s.dead + [id]);
            moved := moved + 1;
          }
          s := s.(pel := s.pel - {id});
        }
        assert before.dead + [] == before.dead;
        assert s == SweepRow(config, listing, before, id);
      }
      assert rows[|rows|..] == [];
      SweptMeans(config, listing, start, rows);
      CopiesMean(config, listing, rows, start.trimmed);
      steps := SweepIsARun(config, listing, start, rows, w);
    }

    /**
     _process_entry on a pending entry: handled, and acknowledged, exactly when the
     pipeline returned; otherwise the entry stays pending.
     */
    method ProcessEntry(id: Id, succeeds: bool) returns (handled: bool)
      requires id in s.pel && (succeeds ==> id !in s.trimmed)
      modifies this
      ensures handled == succeeds && s == Tried(old(s), id, succeeds)
      ensures id in s.pel <==> !handled
    {
      s := s.(ran := s.ran[id := Numbers(s.ran, id) + {s.pel[id]}], attempts := s.attempts[id := Attempts(s, id) + 1]);
      if !succeeds {
        return false;
      }
      s := s.(processed := s.processed + {id});
      s := s.(pel := s.pel - {id});
      return true;
    }

    /** One claimed entry: dead-lettered if over the limit, else run; `ok` tells whether it was handled. */
    method SettleEntry(id: Id, fails: bool, succeeds: bool) returns (ok: bool)
      requires id in s.pel
      modifies this
      ensures s == SettleOne(config, old(s), id, fails, succeeds)
      ensures ok == (!Over(config, old(s).pel[id], fails) && succeeds && id !in old(s).trimmed)
    {
      s := Queried(s, id, fails);
      var over := !fails && s.pel[id] >= config.maxDeliveries;
      if over && config.hasDeadStream {
        assert s.dead + [] == s.dead;
        if id !in s.trimmed {
          s := s.(dead := s.dead + [id]);
        }
        s := s.(pel := s.pel - {id});
        return false;
      }
      ok := ProcessEntry(id, succeeds && id !in s.trimmed);
    }

    /** The loop of _reclaim_pending over the claimed entries. */
    method SettleBatch(ids: seq<Id>, fails: seq<bool>, succeeds: seq<bool>) returns (handled: nat)
      requires |fails| == |succeeds| == |ids| && NoRepeats(ids) && forall id | id in ids :: id in s.pel
      modifies this
      ensures s == Reclaimed(config, old(s), ids, fails, succeeds)
      ensures handled == Successes(config, old(s), ids, fails, succeeds)
    {
      handled := 0;
      ghost var start := s;
      var rest, f, u := ids, fails, succeeds;
      while rest != []
        invariant |rest| == |f| == |u| && StillPending(start, s, rest)
        invariant Reclaimed(config, s, rest, f, u) == Reclaimed(config, start, ids, fails, succeeds)
        invariant handled + Successes(config, start, rest, f, u) == Successes(config, start, ids, fails, succeeds)
        decreases |rest|
      {
        NextOfBatch(config, start, s, rest, f, u);
        var ok := SettleEntry(rest[0], f[0], u[0]);
        if ok {
          handled := handled + 1;
        }
        rest, f, u := rest[1..], f[1..], u[1..];
      }
    }

    /**
     _reclaim_pending of one batch: each entry counts one more delivery; then one over
     the limit is dead-lettered, and any other is run: it leaves the pending list exactly
     if that succeeds, which needs its payload. `handled` counts the successes.
     */
    method ReclaimPending(ids: seq<Id>, fails: seq<bool>, succeeds: seq<bool>, ghost w: nat)
      returns (handled: nat, ghost steps: seq<Step>)
      requires |fails| == |succeeds| == |ids| && NoRepeats(ids) && forall id | id in ids :: id in s.pel
      requires forall v | v in s.work :: v < w
      modifies this
      ensures s == Reclaimed(config, ClaimAll(old(s), ids), ids, fails, succeeds)
      ensures OnlyGrows(old(s), s) && Untouched(old(s), s, ids)
      ensures AllSettled(config, ClaimAll(old(s), ids), s, ids, fails, succeeds)
      ensures forall i | 0 <= i < |ids| && ids[i] in s.pel :: s.pel[ids[i]] == old(s).pel[ids[i]] + 1
      ensures var done := HandledIds(config, old(s).pel, 1, old(s).trimmed, ids, fails, succeeds);
              handled == |done| && Ends(old(s), s, BuriedIds(config, old(s).pel, 1, old(s).trimmed, ids, fails), done)
      ensures Runs(config, old(s), steps, s)
    {
      steps := ReclaimIsARun(config, s, ids, fails, succeeds, w);
      ReclaimedMeans(config, ClaimAll(s, ids), ids, fails, succeeds);
      ReclaimedExactly(config, ClaimAll(s, ids), ids, fails, succeeds);
      SuccessesMean(config, ClaimAll(s, ids), ids, fails, succeeds);
      IdsDepend(config, ClaimAll(s, ids).pel, s.pel, 0, 1, s.trimmed, ids, fails, succeeds);
      s := ClaimAll(s, ids);
      handled := SettleBatch(ids, fails, succeeds);
    }
  }
}
