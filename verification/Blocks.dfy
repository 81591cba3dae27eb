/** Gauge blocks wear off on the battle's own clock, though their holder never acts. */
module Blocks {
  import opened Units
  import opened TurnQueue
  import opened Turns
  import opened News
  import Steady

  /** No finite gauge block here has more than `d` turns to run. */
  predicate BlockBound(ss: seq<Active>, d: nat) {
    forall k :: 0 <= k < |ss| && Spends(ss[k], true) ==> 1 <= d && ss[k].remaining.value <= d
  }

  function Less(d: nat): nat { if d == 0 then 0 else d - 1 }

  lemma BoundCons(s: Active, ss: seq<Active>, d: nat)
    requires BlockBound(ss, d) && (Spends(s, true) ==> 1 <= d && s.remaining.value <= d)
    ensures BlockBound([s] + ss, d)
  {
  }

  lemma {:induction false} KeptBound(ss: seq<Active>, gauge: bool, d: nat)
    requires BlockBound(ss, d)
    ensures BlockBound(Kept(ss, gauge), Less(d))
  {
    if ss != [] {
      assert BlockBound(ss[1..], d);
      KeptBound(ss[1..], gauge, d);
      var rest := Kept(ss[1..], gauge);
      if !Spends(ss[0], gauge) {
        BoundCons(ss[0], rest, Less(d));
      } else if ss[0].remaining.value - 1 > 0 {
        BoundCons(Spent(ss[0]), rest, Less(d));
      }
    }
  }

  lemma BoundWeaker(ss: seq<Active>, d: nat, d': nat)
    requires BlockBound(ss, d) && d <= d'
    ensures BlockBound(ss, d')
  {
  }

  /** Unit `i`, if it lives, has no finite block beyond `d` turns. */
  ghost predicate BoundAt(b: BattleState, i: nat, d: nat) {
    i < |b.units| && (Alive(b.units[i]) ==> BlockBound(b.units[i].statuses, d))
  }

  ghost predicate NoNewBlocks(es: seq<Effect>) {
    forall k :: 0 <= k < |es| && es[k].Grant? ==> !Spends(es[k].status, true)
  }

  ghost predicate GrantsNoBlocks(fx: Passives) {
    forall m, b: BattleState :: NoNewBlocks(fx(m, b))
  }

  lemma AgeBound(b: BattleState, i: nat, d: nat)
    requires BoundAt(b, i, d)
    ensures BoundAt(AgeBlocks(b), i, Less(d))
  {
    var u := b.units[i];
    if Alive(u) {
      KeptBound(u.statuses, true, d);
      if !Blocked(u) {
        forall k | 0 <= k < |u.statuses| ensures !Spends(u.statuses[k], true) {
          assert !u.statuses[k].blocks;
        }
      }
    }
  }

  lemma {:induction false} UnblockBound(b: BattleState, i: nat, d: nat)
    requires BoundAt(b, i, d)
    ensures BoundAt(Unblock(b), i, d)
    decreases FieldBlockTurns(b.units)
  {
    hide AgeBlocks, AnyFillable;
    if AnyAlive(b.units) && !AnyFillable(b.units) && AgesSomething(b.units) {
      AgingEnds(b);
      AgeBound(b, i, d);
      BoundUp(AgeBlocks(b), i, Less(d), d);
      UnblockBound(AgeBlocks(b), i, d);
    }
  }

  lemma BoundUp(b: BattleState, i: nat, d: nat, d': nat)
    requires BoundAt(b, i, d) && d <= d'
    ensures BoundAt(b, i, d')
  {
    if Alive(b.units[i]) { BoundWeaker(b.units[i].statuses, d, d'); }
  }

  lemma RollBound(b: BattleState, i: nat, d: nat)
    requires ValidField(b.units) && BoundAt(b, i, d)
    ensures BoundAt(Roll(b), i, d)
  {
    UnblockBound(b, i, d);
  }

  lemma {:induction false} DropBound(ss: seq<Active>, id: int, d: nat)
    requires BlockBound(ss, d)
    ensures BlockBound(Drop(ss, id), d)
  {
    if ss != [] {
      assert BlockBound(ss[1..], d);
      DropBound(ss[1..], id, d);
      if ss[0].id != id { BoundCons(ss[0], Drop(ss[1..], id), d); }
    }
  }

  lemma {:induction false} PutBound(ss: seq<Active>, st: Active, d: nat)
    requires BlockBound(ss, d) && !Spends(st, true)
    ensures BlockBound(Put(ss, st), d)
  {
    if ss != [] {
      assert BlockBound(ss[1..], d);
      if ss[0].id == st.id { BoundCons(st, ss[1..], d); } else {
        PutBound(ss[1..], st, d);
        BoundCons(ss[0], Put(ss[1..], st), d);
      }
    }
  }

  lemma StruckBound(u: UnitState, e: Effect, d: nat)
    requires Alive(u) ==> BlockBound(u.statuses, d)
    requires e.Grant? ==> !Spends(e.status, true)
    ensures Alive(Struck(u, e)) ==> BlockBound(Struck(u, e).statuses, d)
  {
    if Alive(u) && e.Strip? { DropBound(u.statuses, e.id, d); }
    if Alive(u) && e.Grant? { PutBound(u.statuses, e.status, d); }
  }

  lemma {:induction false} LandAllBound(us: seq<UnitState>, es: seq<Effect>, i: nat, d: nat)
    requires i < |us| && NoNewBlocks(es) && (Alive(us[i]) ==> BlockBound(us[i].statuses, d))
    ensures Alive(LandAll(us, es)[i]) ==> BlockBound(LandAll(us, es)[i].statuses, d)
    decreases |es|
  {
    if es != [] {
      var n := |es| - 1;
      LandAllBound(us, es[..n], i, d);
      StruckBound(LandAll(us, es[..n])[i], es[n], d);
    }
  }

  lemma FireBound(b: BattleState, es: seq<Effect>, i: nat, d: nat)
    requires BoundAt(b, i, d) && NoNewBlocks(es)
    ensures BoundAt(Fire(b, es), i, d)
  {
    LandAllBound(b.units, es, i, d);
  }

  lemma SkipBound(b: BattleState, a: nat, i: nat, d: nat)
    requires BoundAt(b, i, d) && a < |b.units|
    ensures BoundAt(Skip(b, a), i, d)
  {
    if a == i && Alive(b.units[i]) {
      KeptBound(b.units[i].statuses, false, d);
      BoundWeaker(Kept(b.units[i].statuses, false), Less(d), d);
    }
  }

  lemma TickBound(b: BattleState, a: nat, i: nat, d: nat)
    requires BoundAt(b, i, d) && a < |b.units| && Alive(b.units[a])
    ensures BoundAt(Tick(b, a), i, d)
  {
  }

  lemma FinishBound(b: BattleState, a: nat, fx: Passives, i: nat, d: nat)
    requires BoundAt(b, i, d) && a < |b.units| && GrantsNoBlocks(fx)
    ensures BoundAt(FinishAction(b, a, fx), i, d)
  {
    var b1 := b.(units := b.units[a := SpendGauge(TickCooldowns(b.units[a]))]);
    var b2 := Fire(b1, fx(AfterAction, b1));
    FireBound(b1, fx(AfterAction, b1), i, d);
    hide Fire;
    if a == i && Alive(b2.units[i]) {
      KeptBound(b2.units[i].statuses, false, d);
      BoundWeaker(Kept(b2.units[i].statuses, false), Less(d), d);
    }
  }

  lemma {:induction false} StartBound(b: BattleState, depth: nat, fx: Passives, i: nat, d: nat)
    requires ValidField(b.units) && DistinctOrders(b.units) && HeadLives(b) && GrantsNoBlocks(fx) && BoundAt(b, i, d)
    ensures BoundAt(StartOfTurn(b, depth, fx), i, d)
    decreases |b.units| + 1 - depth
  {
    hide Roll, Fire, Tick, Skip, Immobilized, Follows, BoundAt, NoNewBlocks;
    var a := Acting(b);
    if a.Some? && depth <= |b.units| {
      var b1 := Tick(b, a.value);
      TickBound(b, a.value, i, d);
      if !Alive(b1.units[a.value]) {
        var b2 := Fire(b1, fx(OnDeath(depth), b1));
        OpenFollows(b, a.value, fx(OnDeath(depth), b1));
        FireBound(b1, fx(OnDeath(depth), b1), i, d);
        ReseatFollows(b2, Roll(b2).round);
        RollBound(b2, i, d);
        StartBound(Roll(b2), depth + 1, fx, i, d);
      } else {
        var b2 := Fire(b1, fx(TurnStart(depth), b1));
        OpenFollows(b, a.value, fx(TurnStart(depth), b1));
        FireBound(b1, fx(TurnStart(depth), b1), i, d);
        if Immobilized(b2.units[a.value]) {
          SkipValid(b2, a.value);
          SkipReseatFollows(b2, a.value);
          SkipReseatBound(b2, a.value, i, d);
          var b3 := Roll(Skip(b2, a.value));
          StartBound(b3.(round := b3.round + 1), depth + 1, fx, i, d);
        }
      }
    }
  }

  lemma SkipReseatBound(b: BattleState, a: nat, i: nat, d: nat)
    requires ValidField(b.units) && BoundAt(b, i, d) && a < |b.units|
    ensures ValidField(Skip(b, a).units)
    ensures BoundAt(Roll(Skip(b, a)).(round := Roll(Skip(b, a)).round + 1), i, d)
  {
    SkipValid(b, a);
    SkipBound(b, a, i, d);
    hide Roll, Skip;
    RollBound(Skip(b, a), i, d);
  }

  /** One turn of the battle spends at least one turn of every living unit's finite blocks. */
  lemma EndTurnBound(b: BattleState, fx: Passives, i: nat, d: nat)
    requires ValidField(b.units) && DistinctOrders(b.units) && GrantsNoBlocks(fx) && BoundAt(b, i, d)
    ensures BoundAt(EndTurn(b, fx), i, Less(d))
  {
    RotateBound(b, fx, i, d);
    hide Rotate, BoundAt;
    RotateFollows(b, fx);
    StartBound(Rotate(b, fx), 0, fx, i, Less(d));
  }

  lemma RotateBound(b: BattleState, fx: Passives, i: nat, d: nat)
    requires ValidField(b.units) && GrantsNoBlocks(fx) && BoundAt(b, i, d)
    ensures BoundAt(Rotate(b, fx), i, Less(d))
  {
    var a := Acting(b);
    var b1 := if a.None? then b else FinishAction(b, a.value, fx);
    hide FinishAction, AgeBlocks, Roll;
    if a.Some? { FinishBound(b, a.value, fx, i, d); }
    AgeBound(b1, i, d);
    AgedValid(b1);
    RollBound(AgeBlocks(b1), i, Less(d));
  }

  function Minus(d: nat, k: nat): nat { if k >= d then 0 else d - k }

  /** BLOCKS WEAR OFF: a living unit whose gauge blocks last at most `d` turns holds no finite
      gauge block after `d` turns of the battle, whoever took them. */
  lemma {:induction false} BlocksWearOff(b: BattleState, k: nat, fx: Passives, i: nat, d: nat)
    requires ValidField(b.units) && DistinctOrders(b.units) && GrantsNoBlocks(fx) && BoundAt(b, i, d)
    ensures DistinctOrders(Steady.After(b, k, fx).b.units)
    ensures BoundAt(Steady.After(b, k, fx).b, i, Minus(d, k))
  {
    hide EndTurn, BoundAt, GrantsNoBlocks, Follows;
    if k > 0 {
      BlocksWearOff(b, k - 1, fx, i, d);
      var b' := Steady.After(b, k - 1, fx).b;
      EndTurnBound(b', fx, i, Minus(d, k - 1));
      EndTurnFollows(b', fx);
      FollowsDistinct(b', EndTurn(b', fx));
    }
  }
}
