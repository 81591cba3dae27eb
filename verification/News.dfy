/** Every death outside an attack is queued: what ending a turn owes the client. */
module News {
  import opened GaugeRace
  import opened Units
  import opened TurnQueue
  import opened Turns

  /** The same units in the same places; the dead stay dead. */
  ghost predicate SameRoster(us: seq<UnitState>, us': seq<UnitState>) {
    && |us'| == |us|
    && (forall i :: 0 <= i < |us| ==> SameBuild(us[i], us'[i]))
    && (forall i :: 0 <= i < |us| && !Alive(us[i]) ==> !Alive(us'[i]))
  }

  ghost predicate Names(d: DeathRow, u: UnitState, wave: nat) {
    d.die && d.wave == wave && d.order == u.order
  }

  /** Every death row from position `n` on names a unit of the field that is dead. */
  ghost predicate TruthfulFrom(b: BattleState, n: nat) {
    forall k :: n <= k < |b.deaths| && b.deaths[k].die && b.deaths[k].wave == b.wave ==> Dead(b.units, b.deaths[k].order)
  }

  /** From `b` to `b'` news is only added, and every unit that died on the way is in it. */
  ghost predicate Follows(b: BattleState, b': BattleState) {
    && SameRoster(b.units, b'.units)
    && b'.wave == b.wave && b'.waveMax == b.waveMax && b'.tellNonFatal == b.tellNonFatal
    && b'.told == b.told && b'.totals == b.totals && b'.waveBegun == b.waveBegun && b'.auto == b.auto
    && b.deaths <= b'.deaths
    && TruthfulFrom(b', |b.deaths|)
    && (forall i :: 0 <= i < |b.units| && Alive(b.units[i]) && !Alive(b'.units[i]) ==>
          exists k :: |b.deaths| <= k < |b'.deaths| && Names(b'.deaths[k], b.units[i], b.wave))
  }

  lemma SameRosterFinds(us: seq<UnitState>, us': seq<UnitState>, order: nat)
    requires SameRoster(us, us')
    ensures Find(us', order) == Find(us, order)
    ensures Dead(us, order) ==> Dead(us', order)
  {
    SameOrdersFind(us, us', order);
  }

  lemma {:induction false} SameOrdersFind(us: seq<UnitState>, us': seq<UnitState>, order: nat)
    requires |us'| == |us| && forall i :: 0 <= i < |us| ==> us'[i].order == us[i].order
    ensures Find(us', order) == Find(us, order)
  {
    if us != [] {
      SameOrdersFind(us[..|us| - 1], us'[..|us| - 1], order);
    }
  }

  lemma FollowsSelf(b: BattleState)
    ensures Follows(b, b)
  {
  }

  lemma TruthLasts(b: BattleState, b': BattleState, n: nat)
    requires TruthfulFrom(b, n) && Follows(b, b')
    ensures TruthfulFrom(b', n)
  {
    forall k | n <= k < |b'.deaths| && b'.deaths[k].die && b'.deaths[k].wave == b'.wave
      ensures Dead(b'.units, b'.deaths[k].order)
    {
      if k < |b.deaths| {
        assert b'.deaths[k] == b.deaths[k];
        SameRosterFinds(b.units, b'.units, b.deaths[k].order);
      }
    }
  }

  lemma FollowsOn(b: BattleState, b1: BattleState, b2: BattleState)
    requires Follows(b, b1) && Follows(b1, b2)
    ensures Follows(b, b2)
  {
    TruthLasts(b1, b2, |b.deaths|);
    forall i | 0 <= i < |b.units| && Alive(b.units[i]) && !Alive(b2.units[i])
      ensures exists k :: |b.deaths| <= k < |b2.deaths| && Names(b2.deaths[k], b.units[i], b.wave)
    {
      if !Alive(b1.units[i]) {
        var k :| |b.deaths| <= k < |b1.deaths| && Names(b1.deaths[k], b.units[i], b.wave);
        assert b2.deaths[k] == b1.deaths[k];
      } else {
        var k :| |b1.deaths| <= k < |b2.deaths| && Names(b2.deaths[k], b1.units[i], b1.wave);
        assert Names(b2.deaths[k], b.units[i], b.wave);
      }
    }
  }

  /** A step that kills nobody and queues no death follows. */
  lemma QuietFollows(b: BattleState, b': BattleState)
    requires |b'.units| == |b.units|
    requires forall i :: 0 <= i < |b.units| ==> SameBuild(b.units[i], b'.units[i]) && b'.units[i].hp == b.units[i].hp
    requires b'.deaths == b.deaths && b'.wave == b.wave && b'.waveMax == b.waveMax && b'.tellNonFatal == b.tellNonFatal
    requires b'.told == b.told && b'.totals == b.totals && b'.waveBegun == b.waveBegun && b'.auto == b.auto
    ensures Follows(b, b')
  {
  }

  lemma AgeFollows(b: BattleState)
    ensures Follows(b, AgeBlocks(b))
  {
    QuietFollows(b, AgeBlocks(b));
  }

  lemma AgingEnds(b: BattleState)
    requires AgesSomething(b.units)
    ensures FieldBlockTurns(AgeBlocks(b).units) < FieldBlockTurns(b.units)
  {
    AgeShrinks(b.units);
  }

  lemma ForceFollows(b: BattleState)
    ensures Follows(b, b.(units := ForceFastest(b.units)))
  {
    QuietFollows(b, b.(units := ForceFastest(b.units)));
  }

  lemma {:induction false} UnblockFollows(b: BattleState)
    ensures Follows(b, Unblock(b))
    decreases FieldBlockTurns(b.units)
  {
    hide Follows, AgeBlocks, ForceFastest, AnyFillable;
    if !AnyAlive(b.units) || AnyFillable(b.units) {
      FollowsSelf(b);
    } else if AgesSomething(b.units) {
      AgingEnds(b);
      AgeFollows(b);
      UnblockFollows(AgeBlocks(b));
      FollowsOn(b, AgeBlocks(b), Unblock(AgeBlocks(b)));
    } else {
      ForceFollows(b);
    }
  }

  lemma RollFollows(b: BattleState)
    requires ValidField(b.units)
    ensures Follows(b, Roll(b))
  {
    if AnyAlive(b.units) {
      var b1 := Unblock(b);
      UnblockFollows(b);
      UnblockValid(b);
      QuietFollows(b1, Roll(b));
      hide Follows;
      FollowsOn(b, b1, Roll(b));
    } else {
      QuietFollows(b, Roll(b));
    }
  }

  lemma SkipFollows(b: BattleState, i: nat)
    requires i < |b.units|
    ensures Follows(b, Skip(b, i))
  {
    QuietFollows(b, Skip(b, i));
  }

  // -- passive kills ----------------------------------------------------------------

  lemma LandKeeps(us: seq<UnitState>, e: Effect)
    ensures SameRoster(us, Land(us, e))
    ensures forall i :: 0 <= i < |us| && Alive(us[i]) && !Alive(Land(us, e)[i]) ==>
              e.Strike? && e.amount > 0 && e.target == us[i].order && Lands(us, e)
  {
  }

  lemma {:induction false} LandAllKeeps(us: seq<UnitState>, es: seq<Effect>)
    ensures SameRoster(us, LandAll(us, es))
    decreases |es|
  {
    if es != [] {
      LandAllKeeps(us, es[..|es| - 1]);
      LandKeeps(LandAll(us, es[..|es| - 1]), es[|es| - 1]);
    }
  }

  ghost predicate KillsIn(es: seq<Effect>, order: nat) {
    exists k :: 0 <= k < |es| && es[k].Strike? && es[k].amount > 0 && es[k].target == order
  }

  lemma KillsInSnoc(es: seq<Effect>, more: seq<Effect>, order: nat)
    requires KillsIn(es, order)
    ensures KillsIn(es + more, order)
  {
    var k :| 0 <= k < |es| && es[k].Strike? && es[k].amount > 0 && es[k].target == order;
    assert (es + more)[k] == es[k];
  }

  /** Whoever the effects killed was named by a strike that landed. */
  lemma {:induction false} DeathHasStrike(us: seq<UnitState>, es: seq<Effect>, i: nat)
    requires i < |us| && Alive(us[i]) && !Alive(LandAll(us, es)[i])
    ensures KillsIn(Landed(us, es), us[i].order)
    decreases |es|
  {
    var n := |es| - 1;
    LandAllKeeps(us, es[..n]);
    var mid := LandAll(us, es[..n]);
    var last := if Lands(mid, es[n]) then [es[n]] else [];
    assert Landed(us, es) == Landed(us, es[..n]) + last;
    if !Alive(mid[i]) {
      DeathHasStrike(us, es[..n], i);
      KillsInSnoc(Landed(us, es[..n]), last, us[i].order);
    } else {
      LandKeeps(mid, es[n]);
      assert Landed(us, es)[|Landed(us, es[..n])|] == es[n];
    }
  }

  lemma {:induction false} KillRowsTruthful(before: seq<UnitState>, after: seq<UnitState>, wave: nat, es: seq<Effect>)
    ensures forall k :: 0 <= k < |KillRows(before, after, wave, es)| ==>
              var d := KillRows(before, after, wave, es)[k]; d.die && d.wave == wave && Dead(after, d.order)
    decreases |es|
  {
    if es != [] {
      KillRowsTruthful(before, after, wave, es[..|es| - 1]);
    }
  }

  lemma {:induction false} KillRowsComplete(before: seq<UnitState>, after: seq<UnitState>, wave: nat, es: seq<Effect>, order: nat)
    requires KillsIn(es, order) && Dead(after, order)
    ensures exists k :: 0 <= k < |KillRows(before, after, wave, es)| && KillRows(before, after, wave, es)[k].order == order
    decreases |es|
  {
    var n := |es| - 1;
    var j :| 0 <= j < |es| && es[j].Strike? && es[j].amount > 0 && es[j].target == order;
    var rows, rows0 := KillRows(before, after, wave, es), KillRows(before, after, wave, es[..n]);
    if j < n {
      assert es[..n][j] == es[j];
      KillRowsComplete(before, after, wave, es[..n], order);
      var k :| 0 <= k < |rows0| && rows0[k].order == order;
      assert rows[k] == rows0[k];
    } else {
      assert rows[|rows0|].order == order;
    }
  }

  lemma FireFollows(b: BattleState, es: seq<Effect>)
    requires DistinctOrders(b.units)
    ensures Follows(b, Fire(b, es))
  {
    var b' := Fire(b, es);
    var done := Landed(b.units, es);
    var rows := KillRows(b.units, b'.units, b.wave, done);
    LandAllKeeps(b.units, es);
    KillRowsTruthful(b.units, b'.units, b.wave, done);
    forall k | |b.deaths| <= k < |b'.deaths| ensures Dead(b'.units, b'.deaths[k].order) {
      assert b'.deaths[k] == rows[k - |b.deaths|];
    }
    forall i | 0 <= i < |b.units| && Alive(b.units[i]) && !Alive(b'.units[i])
      ensures exists k :: |b.deaths| <= k < |b'.deaths| && Names(b'.deaths[k], b.units[i], b.wave)
    {
      DeathHasStrike(b.units, es, i);
      SameRosterFinds(b.units, b'.units, b.units[i].order);
      FindsPosition(b.units, i);
      KillRowsComplete(b.units, b'.units, b.wave, done, b.units[i].order);
      var k :| 0 <= k < |rows| && rows[k].order == b.units[i].order;
      assert b'.deaths[|b.deaths| + k] == rows[k];
      assert Names(b'.deaths[|b.deaths| + k], b.units[i], b.wave);
    }
  }

  lemma TickFollows(b: BattleState, i: nat)
    requires DistinctOrders(b.units) && i < |b.units| && Alive(b.units[i])
    ensures Follows(b, Tick(b, i))
  {
    var b' := Tick(b, i);
    var u := b.units[i];
    FindsPosition(b.units, i);
    SameRosterFinds(b.units, b'.units, u.order);
    if !Alive(b'.units[i]) {
      assert Names(b'.deaths[|b.deaths|], u, b.wave);
    }
  }

  // -- whole turns ------------------------------------------------------------------

  ghost predicate HeadLives(b: BattleState) {
    Acting(b).Some? ==> Alive(b.units[Acting(b).value])
  }

  lemma RollLife(b: BattleState)
    requires ValidField(b.units) && AnyAlive(Roll(b).units)
    ensures AnyAlive(b.units)
  {
    RollFollows(b);
    hide Roll;
    var us := Roll(b).units;
    var a :| 0 <= a < |us| && Alive(us[a]);
    assert Alive(b.units[a]);
  }

  lemma RollHead(b: BattleState)
    requires ValidField(b.units) && DistinctOrders(b.units)
    ensures HeadLives(Roll(b)) && DistinctOrders(Roll(b).units)
    ensures AnyAlive(Roll(b).units) ==> Acting(Roll(b)).Some?
  {
    RollFollows(b);
    FollowsDistinct(b, Roll(b));
    if AnyAlive(b.units) {
      RollSeats(b);
      hide Roll, Follows;
      var us := Roll(b).units;
      var i :| 0 <= i < |us| && us[i].order == Roll(b).turnOrder[0] && Alive(us[i]) && us[i].scv == FULL;
      FindsPosition(us, i);
    } else if AnyAlive(Roll(b).units) {
      RollLife(b);
    }
  }

  lemma RosterDistinct(us: seq<UnitState>, us': seq<UnitState>)
    requires SameRoster(us, us') && DistinctOrders(us)
    ensures DistinctOrders(us')
  {
  }

  lemma TickValid(b: BattleState, i: nat)
    requires ValidField(b.units) && i < |b.units|
    ensures ValidField(Tick(b, i).units)
  {
  }

  lemma SkipValid(b: BattleState, i: nat)
    requires ValidField(b.units) && i < |b.units|
    ensures ValidField(Skip(b, i).units)
  {
  }

  /** What the start of a turn settles before anyone may be skipped. */
  lemma OpenFollows(b: BattleState, i: nat, es: seq<Effect>)
    requires ValidField(b.units) && DistinctOrders(b.units) && i < |b.units| && Alive(b.units[i])
    ensures var b2 := Fire(Tick(b, i), es); Follows(b, b2) && ValidField(b2.units) && DistinctOrders(b2.units)
  {
    hide Follows, Fire, Tick;
    TickFollows(b, i);
    TickValid(b, i);
    FollowsDistinct(b, Tick(b, i));
    FireFollows(Tick(b, i), es);
    FireValid(Tick(b, i), es);
    FollowsOn(b, Tick(b, i), Fire(Tick(b, i), es));
    FollowsDistinct(b, Fire(Tick(b, i), es));
  }

  /** Seating the next unit, after a death or a skipped turn. */
  lemma ReseatFollows(b: BattleState, round: nat)
    requires ValidField(b.units) && DistinctOrders(b.units)
    ensures var b' := Roll(b).(round := round);
            Follows(b, b') && ValidField(b'.units) && DistinctOrders(b'.units) && HeadLives(b')
  {
    RollFollows(b);
    RollHead(b);
    QuietFollows(Roll(b), Roll(b).(round := round));
    hide Follows, Roll;
    FollowsOn(b, Roll(b), Roll(b).(round := round));
  }

  lemma SkipReseatFollows(b: BattleState, i: nat)
    requires ValidField(b.units) && DistinctOrders(b.units) && i < |b.units|
    ensures var b3 := Roll(Skip(b, i)); var b' := b3.(round := b3.round + 1);
            Follows(b, b') && ValidField(b'.units) && DistinctOrders(b'.units) && HeadLives(b')
  {
    hide Follows, Roll, Skip;
    SkipFollows(b, i);
    SkipValid(b, i);
    FollowsDistinct(b, Skip(b, i));
    var b3 := Roll(Skip(b, i));
    ReseatFollows(Skip(b, i), b3.round + 1);
    FollowsOn(b, Skip(b, i), b3.(round := b3.round + 1));
  }

  /** One try at settling the head queues every death it causes. */
  lemma StepFollows(b: BattleState, depth: nat, fx: Passives)
    requires ValidField(b.units) && DistinctOrders(b.units) && HeadLives(b)
    ensures var t := StartStep(b, depth, fx);
            Follows(b, t.b) && DistinctOrders(t.b.units) && (t.Again? ==> HeadLives(t.b))
  {
    hide Follows, Roll, Fire, Tick, Skip, Immobilized, HeadLives;
    var a := Acting(b);
    if a.None? {
      FollowsSelf(b);
    } else {
      var i := a.value;
      HeadAlive(b);
      var b1 := Tick(b, i);
      if !Alive(b1.units[i]) {
        var b2 := Fire(b1, fx(OnDeath(depth), b1));
        OpenFollows(b, i, fx(OnDeath(depth), b1));
        ReseatFollows(b2, Roll(b2).round);
        FollowsOn(b, b2, Roll(b2));
      } else {
        var b2 := Fire(b1, fx(TurnStart(depth), b1));
        OpenFollows(b, i, fx(TurnStart(depth), b1));
        if Immobilized(b2.units[i]) {
          SkipReseatFollows(b2, i);
          FollowsOn(b, b2, StartStep(b, depth, fx).b);
        }
      }
    }
  }

  lemma HeadAlive(b: BattleState)
    requires HeadLives(b) && Acting(b).Some?
    ensures Alive(b.units[Acting(b).value])
  {
  }

  /** Start-of-turn housekeeping queues every death it causes. */
  lemma {:induction false} StartFollows(b: BattleState, depth: nat, fx: Passives)
    requires ValidField(b.units) && DistinctOrders(b.units) && HeadLives(b)
    ensures Follows(b, StartOfTurn(b, depth, fx))
    decreases |b.units| + 1 - depth
  {
    hide Follows, StartStep, HeadLives;
    if depth > |b.units| {
      FollowsSelf(b);
    } else {
      StepFollows(b, depth, fx);
      var t := StartStep(b, depth, fx);
      if t.Again? {
        StartFollows(t.b, depth + 1, fx);
        FollowsOn(b, t.b, StartOfTurn(t.b, depth + 1, fx));
      }
    }
  }

  lemma FollowsDistinct(b: BattleState, b': BattleState)
    requires Follows(b, b') && DistinctOrders(b.units)
    ensures DistinctOrders(b'.units)
  {
  }

  lemma FinishFollows(b: BattleState, i: nat, fx: Passives)
    requires i < |b.units| && DistinctOrders(b.units)
    ensures Follows(b, FinishAction(b, i, fx))
  {
    var b1 := b.(units := b.units[i := SpendGauge(TickCooldowns(b.units[i]))]);
    QuietFollows(b, b1);
    FireFollows(b1, fx(AfterAction, b1));
    var b2 := Fire(b1, fx(AfterAction, b1));
    QuietFollows(b2, FinishAction(b, i, fx));
    hide Follows;
    FollowsOn(b, b1, b2);
    FollowsOn(b, b2, FinishAction(b, i, fx));
  }

  lemma RotateFollows(b: BattleState, fx: Passives)
    requires ValidField(b.units) && DistinctOrders(b.units)
    ensures Follows(b, Rotate(b, fx)) && HeadLives(Rotate(b, fx)) && DistinctOrders(Rotate(b, fx).units)
    ensures AnyAlive(Rotate(b, fx).units) ==> Acting(Rotate(b, fx)).Some?
  {
    hide Follows, Roll, AgeBlocks, FinishAction;
    var a := Acting(b);
    var b1 := if a.None? then b else FinishAction(b, a.value, fx);
    if a.None? { FollowsSelf(b); } else { FinishFollows(b, a.value, fx); }
    AgeFollows(b1);
    AgedValid(b1);
    var b2 := AgeBlocks(b1);
    FollowsDistinct(b, b1);
    FollowsDistinct(b1, b2);
    RollHead(b2);
    ReseatFollows(b2, Roll(b2).round);
    OpenedFollows(Roll(b2));
    FollowsAll(b, b1, b2, Roll(b2), Rotate(b, fx));
  }

  lemma OpenedFollows(b: BattleState)
    ensures Follows(b, b.(round := b.round + 1, turnOpen := false))
  {
    QuietFollows(b, b.(round := b.round + 1, turnOpen := false));
  }

  lemma FollowsAll(b: BattleState, b1: BattleState, b2: BattleState, b3: BattleState, b4: BattleState)
    requires Follows(b, b1) && Follows(b1, b2) && Follows(b2, b3) && Follows(b3, b4)
    ensures Follows(b, b4)
  {
    hide Follows;
    FollowsOn(b, b1, b2);
    FollowsOn(b, b2, b3);
    FollowsOn(b, b3, b4);
  }

  /** NO DEATH GOES UNQUEUED: whoever dies while a turn ends, by a tick or by a passive, is
      named by a death row of the current wave, and every such row names a dead unit. */
  lemma EndTurnFollows(b: BattleState, fx: Passives)
    requires ValidField(b.units) && DistinctOrders(b.units)
    ensures Follows(b, EndTurn(b, fx))
  {
    hide Follows, Rotate;
    RotateFollows(b, fx);
    StartFollows(Rotate(b, fx), 0, fx);
    FollowsOn(b, Rotate(b, fx), EndTurn(b, fx));
  }
}
