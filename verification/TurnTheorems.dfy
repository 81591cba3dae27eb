/** What a turn guarantees: counted rounds, and a head that can act unless the cap cut in. */
module TurnTheorems {
  import opened Wrappers
  import opened Units
  import opened TurnQueue
  import opened Turns
  import opened News

  // -- rounds and the head of the queue ---------------------------------------------

  /** How the start of a turn was settled: turns skipped, and whether the cap cut it short. */
  datatype Settlement = Settlement(skips: nat, capped: bool)

  ghost function Settling(b: BattleState, depth: nat, fx: Passives): Settlement
    requires ValidField(b.units)
    decreases |b.units| + 1 - depth
  {
    var i := Acting(b);
    if i.None? then Settlement(0, false)
    else if depth > |b.units| then Settlement(0, true)
    else
      var b1 := Tick(b, i.value);
      if !Alive(b1.units[i.value]) then
        FireValid(b1, fx(OnDeath(depth), b1));
        Settling(Roll(Fire(b1, fx(OnDeath(depth), b1))), depth + 1, fx)
      else
        FireValid(b1, fx(TurnStart(depth), b1));
        var b2 := Fire(b1, fx(TurnStart(depth), b1));
        if Immobilized(b2.units[i.value]) then
          var b3 := Roll(Skip(b2, i.value));
          var s := Settling(b3.(round := b3.round + 1), depth + 1, fx);
          s.(skips := s.skips + 1)
        else Settlement(0, false)
  }

  lemma RoundUnchanged(b: BattleState)
    requires ValidField(b.units)
    ensures Roll(b).round == b.round
  {
    UnblockRound(b);
  }

  lemma {:induction false} UnblockRound(b: BattleState)
    ensures Unblock(b).round == b.round
    decreases FieldBlockTurns(b.units)
  {
    if AnyAlive(b.units) && !AnyFillable(b.units) && AgesSomething(b.units) {
      AgeShrinks(b.units);
      UnblockRound(AgeBlocks(b));
    }
  }

  lemma OpenRound(b: BattleState, i: nat, es: seq<Effect>)
    requires ValidField(b.units) && i < |b.units|
    ensures ValidField(Tick(b, i).units) && ValidField(Fire(Tick(b, i), es).units)
    ensures Fire(Tick(b, i), es).round == b.round
  {
    TickValid(b, i);
    FireValid(Tick(b, i), es);
  }

  lemma SkipRound(b: BattleState, i: nat)
    requires ValidField(b.units) && i < |b.units|
    ensures ValidField(Skip(b, i).units) && Roll(Skip(b, i)).round == b.round
  {
    SkipValid(b, i);
    RoundUnchanged(Skip(b, i));
  }

  lemma {:induction false} StartCountsRounds(b: BattleState, depth: nat, fx: Passives)
    requires ValidField(b.units)
    ensures StartOfTurn(b, depth, fx).round == b.round + Settling(b, depth, fx).skips
    decreases |b.units| + 1 - depth
  {
    hide Roll, Fire, Tick, Skip, Immobilized;
    var a := Acting(b);
    if a.Some? && depth <= |b.units| {
      var i := a.value;
      var b1 := Tick(b, i);
      if !Alive(b1.units[i]) {
        OpenRound(b, i, fx(OnDeath(depth), b1));
        var b2 := Fire(b1, fx(OnDeath(depth), b1));
        RoundUnchanged(b2);
        StartCountsRounds(Roll(b2), depth + 1, fx);
      } else {
        OpenRound(b, i, fx(TurnStart(depth), b1));
        var b2 := Fire(b1, fx(TurnStart(depth), b1));
        if Immobilized(b2.units[i]) {
          SkipRound(b2, i);
          var b3 := Roll(Skip(b2, i));
          StartCountsRounds(b3.(round := b3.round + 1), depth + 1, fx);
        }
      }
    }
  }

  lemma RotateRound(b: BattleState, fx: Passives)
    requires ValidField(b.units)
    ensures Rotate(b, fx).round == b.round + 1 && !Rotate(b, fx).turnOpen
  {
    var i := Acting(b);
    var b1 := if i.None? then b else FinishAction(b, i.value, fx);
    RoundUnchanged(AgeBlocks(b1));
  }

  /** ROUNDS ARE COUNTED EXACTLY: a turn adds one, plus one for every turn it skips. */
  lemma EndTurnRound(b: BattleState, fx: Passives)
    requires ValidField(b.units)
    ensures EndTurn(b, fx).round == b.round + 1 + Settling(Rotate(b, fx), 0, fx).skips
  {
    RotateRound(b, fx);
    StartCountsRounds(Rotate(b, fx), 0, fx);
  }

  /** Turn-start passives do not kill the unit whose turn is starting. */
  ghost predicate SparesActor(fx: Passives) {
    forall d, b: BattleState :: Acting(b).Some? && Alive(b.units[Acting(b).value]) ==>
      Alive(Fire(b, fx(TurnStart(d), b)).units[Acting(b).value])
  }

  ghost predicate HeadCanAct(b: BattleState) {
    Acting(b).Some? && Alive(b.units[Acting(b).value]) && !Immobilized(b.units[Acting(b).value])
  }

  lemma ActingStays(b: BattleState, b': BattleState)
    requires Follows(b, b') && b'.turnOrder == b.turnOrder
    ensures Acting(b') == Acting(b)
  {
    if b.turnOrder != [] { SameRosterFinds(b.units, b'.units, b.turnOrder[0]); }
  }

  lemma NobodyActing(b: BattleState)
    requires ValidField(b.units) && DistinctOrders(b.units)
    ensures Acting(Roll(b)).None? ==> !AnyAlive(Roll(b).units)
  {
    RollHead(b);
  }

  /** A seated battle has a living head, or nobody to seat. */
  ghost predicate Seated(b: BattleState) {
    ValidField(b.units) && DistinctOrders(b.units) && HeadLives(b) && (Acting(b).None? ==> !AnyAlive(b.units))
  }

  lemma ReseatSeats(b: BattleState, round: nat)
    requires ValidField(b.units) && DistinctOrders(b.units)
    ensures Seated(Roll(b).(round := round))
  {
    ReseatFollows(b, round);
    NobodyActing(b);
  }

  /** Whoever heads the queue is not held from acting, and lives if turn-start passives spare it. */
  ghost predicate HeadFree(b: BattleState, fx: Passives) {
    match Acting(b)
    case None => !AnyAlive(b.units)
    case Some(i) => !Immobilized(b.units[i]) && (SparesActor(fx) ==> Alive(b.units[i]))
  }

  lemma StepSeats(b: BattleState, depth: nat, fx: Passives)
    requires Seated(b)
    ensures var t := StartStep(b, depth, fx); if t.Again? then Seated(t.b) else HeadFree(t.b, fx)
  {
    hide Roll, Fire, Tick, Skip, Immobilized, Follows, SparesActor;
    var a := Acting(b);
    if a.Some? {
      var i := a.value;
      var b1 := Tick(b, i);
      if !Alive(b1.units[i]) {
        OpenFollows(b, i, fx(OnDeath(depth), b1));
        ReseatSeats(Fire(b1, fx(OnDeath(depth), b1)), Roll(Fire(b1, fx(OnDeath(depth), b1))).round);
      } else {
        var b2 := Fire(b1, fx(TurnStart(depth), b1));
        OpenFollows(b, i, fx(TurnStart(depth), b1));
        if Immobilized(b2.units[i]) {
          SkipValid(b2, i);
          SkipFollows(b2, i);
          FollowsDistinct(b2, Skip(b2, i));
          ReseatSeats(Skip(b2, i), Roll(Skip(b2, i)).round + 1);
        } else {
          StaysSeated(b, i, fx(TurnStart(depth), b1));
          if SparesActor(fx) { ActorSpared(b, i, depth, fx); }
        }
      }
    }
  }

  lemma {:induction false} StartSeatsActor(b: BattleState, depth: nat, fx: Passives)
    requires Seated(b)
    ensures !Settling(b, depth, fx).capped ==> HeadFree(StartOfTurn(b, depth, fx), fx)
    decreases |b.units| + 1 - depth
  {
    hide *;
    SeatedValid(b);
    StartOnce(b, depth, fx);
    SettlingOnce(b, depth, fx);
    if Acting(b).None? {
      NobodySeated(b, depth, fx);
    } else if depth <= |b.units| {
      StepSeats(b, depth, fx);
      var t := StartStep(b, depth, fx);
      if t.Again? { StartSeatsActor(t.b, depth + 1, fx); }
    }
  }

  lemma StartOnce(b: BattleState, k: nat, fx: Passives)
    requires ValidField(b.units)
    ensures StartOfTurn(b, k, fx) == if k > |b.units| then b
                                     else if StartStep(b, k, fx).Settled? then StartStep(b, k, fx).b
                                     else StartOfTurn(StartStep(b, k, fx).b, k + 1, fx)
  {
  }


  lemma SeatedValid(b: BattleState)
    requires Seated(b)
    ensures ValidField(b.units)
  {
  }

  lemma NobodySeated(b: BattleState, depth: nat, fx: Passives)
    requires Seated(b) && Acting(b).None?
    ensures HeadFree(b, fx) && StartOfTurn(b, depth, fx) == b
  {
  }

  lemma SettlingOnce(b: BattleState, depth: nat, fx: Passives)
    requires ValidField(b.units)
    ensures Settling(b, depth, fx).capped <==>
              && Acting(b).Some?
              && (depth > |b.units| || (StartStep(b, depth, fx).Again? && Settling(StartStep(b, depth, fx).b, depth + 1, fx).capped))
  {
    hide Roll, Fire, Tick, Skip, Immobilized;
  }

  lemma StaysSeated(b: BattleState, i: nat, es: seq<Effect>)
    requires ValidField(b.units) && DistinctOrders(b.units) && Acting(b) == Some(i) && Alive(b.units[i])
    ensures Acting(Tick(b, i)) == Some(i) && Acting(Fire(Tick(b, i), es)) == Some(i)
  {
    OpenFollows(b, i, es);
    TickFollows(b, i);
    ActingStays(b, Tick(b, i));
    ActingStays(b, Fire(Tick(b, i), es));
  }

  lemma ActorSpared(b: BattleState, i: nat, depth: nat, fx: Passives)
    requires ValidField(b.units) && DistinctOrders(b.units) && Acting(b) == Some(i) && Alive(b.units[i]) && SparesActor(fx)
    requires Alive(Tick(b, i).units[i])
    ensures Alive(Fire(Tick(b, i), fx(TurnStart(depth), Tick(b, i))).units[i])
  {
    StaysSeated(b, i, []);
    hide Tick, Fire;
    var b1 := Tick(b, i);
    assert Acting(b1).Some? && Alive(b1.units[Acting(b1).value]);
  }

  /** WHAT AN UNCAPPED TURN GIVES, exactly: nobody is left alive, or the head of the queue is not
      held; and then it can act if and only if it lives, which it does unless a turn-start passive
      has killed it. */
  lemma EndTurnHead(b: BattleState, fx: Passives)
    requires ValidField(b.units) && DistinctOrders(b.units) && !Settling(Rotate(b, fx), 0, fx).capped
    ensures HeadFree(EndTurn(b, fx), fx)
    ensures HeadCanAct(EndTurn(b, fx)) <==>
              Acting(EndTurn(b, fx)).Some? && Alive(EndTurn(b, fx).units[Acting(EndTurn(b, fx)).value])
  {
    hide Rotate, SparesActor;
    RotateFollows(b, fx);
    StartSeatsActor(Rotate(b, fx), 0, fx);
  }

  /** A TURN ENDS WITH SOMEBODY TO PLAY: unless the depth cap cut the settling short, the head
      of the queue is alive and can act, or nobody is left alive. */
  lemma EndTurnSeatsActor(b: BattleState, fx: Passives)
    requires ValidField(b.units) && DistinctOrders(b.units) && SparesActor(fx)
    ensures !Settling(Rotate(b, fx), 0, fx).capped ==>
              HeadCanAct(EndTurn(b, fx)) || !AnyAlive(EndTurn(b, fx).units)
  {
    hide EndTurn, SparesActor;
    if !Settling(Rotate(b, fx), 0, fx).capped { EndTurnHead(b, fx); }
  }
}
