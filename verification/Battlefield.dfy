/** The battle as an object: units, queue and news are fields its methods update in place, and
    each method does to them what its specification says of their values. */
module Battlefield {
  import opened Wrappers
  import opened GaugeRace
  import opened Projection
  import opened Units
  import opened StatusRows
  import opened TurnQueue
  import opened Turns
  import opened Outbound
  import opened Replies
  import opened Reach
  import opened Resume
  import opened BattleUnit
  import opened BattleSteps

  // -- the units of a field ---------------------------------------------------------

  ghost predicate Apart(us: seq<Unit>) {
    forall i, j :: 0 <= i < j < |us| ==> us[i] != us[j]
  }

  function Views(us: seq<Unit>): (vs: seq<UnitState>)
    reads us
    ensures |vs| == |us| && forall i :: 0 <= i < |us| ==> vs[i] == us[i].View()
  {
    if us == [] then [] else Views(us[..|us| - 1]) + [us[|us| - 1].View()]
  }

  /** One unit changed and no other: one view changed and no other. */
  lemma OneView(us: seq<Unit>, before: seq<UnitState>, i: nat, v: UnitState)
    requires |before| == |us| && i < |us| && us[i].View() == v
    requires forall k :: 0 <= k < |us| && k != i ==> us[k].View() == before[k]
    ensures Views(us) == before[i := v]
  {
  }

  /** The status rows of an attack: its own, and the queued ones of this wave behind them. */
  function RowsTold(b: BattleState, done: seq<Effect>, wireable: int -> bool): seq<Change> {
    OnWire(ChangesOf(done), wireable) + OnWire(OfWave(b.rows, b.wave), wireable)
  }

  /** The attack that tells of what has been done; one that struck nobody names `target`. */
  function Telling(b: BattleState, done: seq<Effect>, target: nat, wireable: int -> bool): Message {
    var hits := HitsOf(b.units, done);
    Attack(if hits == [] then [Hit(target, 0, false)] else hits, RowsTold(b, done, wireable))
  }

  /** What an attack comes to: its effects, then its telling. */
  lemma AttackIs(b: BattleState, attacker: nat, defender: nat, slot: int, env: Env,
                 es: seq<Effect>, done: seq<Effect>, target: nat, b1: BattleState)
    requires es == EffectsOf(b, attacker, defender, slot, env)
    requires target == if Find(b.units, defender).Some? then defender else attacker
    requires done == Landed(b.units, es)
    requires b1 == b.(units := LandAll(b.units, es), damageSum := b.damageSum + DealtBy(done))
    ensures ResolveSkill(b, attacker, defender, slot, env)
         == (b1.(rows := [], told := Tell(b1.told, RowsTold(b1, done, env.wireable))), Telling(b1, done, target, env.wireable))
  {
    hide Find, LandAll, Landed, HitsOf, OnWire, OfWave, ChangesOf, Tell, DealtBy;
  }

  method NewUnits(vs: seq<UnitState>) returns (us: seq<Unit>)
    ensures Views(us) == vs && Apart(us) && forall u :: u in us ==> fresh(u)
  {
    hide Views, Apart;
    us := [];
    NobodyYet();
    for n := 0 to |vs|
      invariant |us| == n && Apart(us) && (forall u :: u in us ==> fresh(u)) && Views(us) == vs[..n]
    {
      var u := new Unit(vs[n]);
      ViewsSnoc(us, u);
      ApartSnoc(us, u);
      us := us + [u];
    }
  }

  lemma NobodyYet()
    ensures Views([]) == [] && Apart([])
  {
  }

  lemma ApartSnoc(us: seq<Unit>, u: Unit)
    requires Apart(us) && u !in us
    ensures Apart(us + [u])
  {
  }

  lemma ViewsSnoc(us: seq<Unit>, u: Unit)
    ensures Views(us + [u]) == Views(us) + [u.View()]
  {
  }

  lemma ViewsAppend(us: seq<Unit>, more: seq<Unit>)
    ensures Views(us + more) == Views(us) + Views(more)
  {
  }

  /** The units of one team, in field order. */
  function TeamOf(us: seq<Unit>, team: int): (r: seq<Unit>)
    ensures forall u :: u in r ==> u in us
  {
    if us == [] then []
    else
      var n := |us| - 1;
      assert us == us[..n] + [us[n]];
      TeamOf(us[..n], team) + if us[n].team == team then [us[n]] else []
  }

  lemma EitherList(us: seq<Unit>, more: seq<Unit>, i: nat)
    requires i < |us + more|
    ensures (us + more)[i] in us || (us + more)[i] in more
  {
  }

  lemma {:induction false} TeamOfViews(us: seq<Unit>, team: int)
    ensures Views(TeamOf(us, team)) == OfTeam(Views(us), team)
  {
    if us != [] {
      var n := |us| - 1;
      TeamOfViews(us[..n], team);
      assert Views(us)[..n] == Views(us[..n]);
      if us[n].team == team { ViewsSnoc(TeamOf(us[..n], team), us[n]); }
    }
  }

  lemma {:induction false} TeamOfApart(us: seq<Unit>, team: int)
    requires Apart(us)
    ensures Apart(TeamOf(us, team))
  {
    if us != [] {
      var n := |us| - 1;
      TeamOfApart(us[..n], team);
      if us[n].team == team {
        assert us[n] !in us[..n];
        AppendApart(TeamOf(us[..n], team), [us[n]]);
      }
    }
  }

  lemma AppendApart(us: seq<Unit>, more: seq<Unit>)
    requires Apart(us) && Apart(more) && forall u :: u in more ==> u !in us
    ensures Apart(us + more)
  {
    var all := us + more;
    forall i, j | 0 <= i < j < |all| ensures all[i] != all[j] {
      if i < |us| <= j { assert all[i] in us && all[j] in more; }
    }
  }

  // -- the battle -------------------------------------------------------------------

  class Battle {
    var units: seq<Unit>
    var turnOrder: seq<nat>
    var wave: nat
    var waveMax: nat
    var round: nat
    var damageSum: nat
    var pendingDotDeaths: seq<DeathRow>
    var pendingStatusRows: seq<Row>
    var statusTold: set<Key>
    var enemyTotals: map<nat, Total>
    var turnOpen: bool
    var waveBegun: bool
    var auto: bool
    const tellNonFatal: bool

    /** The battle as a value. */
    function State(): (b: BattleState)
      reads this, units
      ensures b.units == Views(units) && b.wave == wave
    {
      BattleState(Views(units), turnOrder, wave, waveMax, round, damageSum, pendingDotDeaths, pendingStatusRows, statusTold,
                  enemyTotals, turnOpen, waveBegun, auto, tellNonFatal)
    }

    ghost predicate Valid()
      reads this, units
    {
      Apart(units) && ValidField(Views(units))
    }

    /** Build the party, bring on the first wave, let battle-start passives take hold, and roll. */
    constructor (s: Setup, fx: Passives)
      ensures Valid() && State() == NewBattle(s, fx)
      ensures forall i :: 0 <= i < |units| ==> fresh(units[i])
    {
      units, turnOrder, wave, waveMax, round, damageSum := [], [], 1, Waves(s), 1, 0;
      pendingDotDeaths, pendingStatusRows, statusTold, enemyTotals := [], [], {}, map[];
      turnOpen, waveBegun, auto, tellNonFatal := false, false, false, s.tell;
      new;
      Open(s, fx);
    }

    method Open(s: Setup, fx: Passives)
      requires units == [] && State() == Bare(s)
      modifies this`units, this`enemyTotals, this`turnOrder, this`pendingStatusRows
      ensures Valid() && State() == NewBattle(s, fx)
      ensures forall i :: 0 <= i < |units| ==> fresh(units[i])
    {
      hide State, Views, Apart, ValidField, LandAll, Roll, Field0, Bare, Line;
      OpeningValid(s, fx);
      TakeField(s);
      var _ := LandEffects(fx(BattleStart, State()));
      RollTurnOrder();
    }

    method TakeField(s: Setup)
      requires units == [] && State() == Bare(s)
      modifies this`units, this`enemyTotals
      ensures Valid() && State() == Field0(s) && Views(units) == Line(s, 1)
      ensures forall i :: 0 <= i < |units| ==> fresh(units[i])
    {
      hide State, Views, Apart, ValidField, Replies.SpawnWave, Field0, Bare, Line;
      BareField(s);
      AddParty(s);
      SpawnWave(StageOf(s));
    }

    // -- news and blocks ------------------------------------------------------------

    /** Queue changes that happened outside an attack, one row for each unit and status. */
    method QueueStatusRows(changes: seq<Change>)
      modifies this`pendingStatusRows
      ensures State() == old(State()).(rows := QueueAll(old(State()).rows, old(State()).told, old(State()).wave, changes))
    {
      ghost var rows := pendingStatusRows;
      for n := 0 to |changes|
        invariant pendingStatusRows == QueueAll(rows, statusTold, wave, changes[..n])
      {
        assert changes[..n + 1][..n] == changes[..n];
        var key := KeyOf(changes[n]);
        var prior := LastOf(pendingStatusRows, key);
        pendingStatusRows := Without(pendingStatusRows, key);
        if !(prior.Some? && prior.value.change.applied && !changes[n].applied && key !in statusTold) {
          pendingStatusRows := pendingStatusRows + [Row(changes[n], wave)];
        }
      }
      assert changes[..|changes|] == changes;
    }

    /** Spend a turn of the gauge blocks of one unit, if it lives. */
    method AgeGaugeBlocksOf(n: nat) returns (aged: bool)
      requires Apart(units) && n < |units|
      modifies this`pendingStatusRows, units
      ensures State() == AgedOne(old(State()), n)
      ensures aged == HasBlock(old(Views(units))[n])
    {
      var u := units[n];
      ghost var us := Views(units);
      aged := false;
      if u.hp > 0 && Blocked(u.View()) {
        aged := AnySpends(u.statuses, true);
        var expired := u.Age(true);
        OneView(units, us, n, AgeUnit(us[n]));
        QueueStatusRows(Removals(u.View(), expired));
      } else {
        BlocksBlock(us[n]);
        OneView(units, us, n, AgeUnit(us[n]));
      }
    }

    /** Spend a turn of every gauge block on the field. -> did any block have a turn to spend? */
    method AgeGaugeBlocks() returns (aged: bool)
      requires Apart(units)
      modifies this`pendingStatusRows, units
      ensures State() == AgeBlocks(old(State()))
      ensures aged == AgesSomething(old(Views(units)))
    {
      hide AgedOne, AgedTo, HasBlock, AgeBlocks, AgesSomething, State, Views, Apart;
      ghost var b := State();
      aged := false;
      AgedNone(b);
      for n := 0 to |units|
        invariant State() == AgedTo(b, n)
        invariant aged == exists k :: 0 <= k < n && HasBlock(b.units[k])
      {
        AgedStep(b, n);
        var one := AgeGaugeBlocksOf(n);
        aged := aged || one;
      }
      AgedAll(b);
      SomeBlock(b.units);
    }

    // -- rolling the queue ----------------------------------------------------------

    /** Hand the best-ranked living unit a full gauge. */
    method ForceSomeone()
      requires Apart(units)
      modifies units
      ensures State() == old(State()).(units := ForceFastest(old(Views(units))))
    {
      ghost var us := Views(units);
      match Best(Racers(Views(units)), LiveMask(Views(units)), |units|)
      case None =>
      case Some(i) =>
        units[i].scv := FULL;
        OneView(units, us, i, us[i].(scv := FULL));
    }

    /** While nobody living can fill, run the clock on gauge blocks; when no block has a turn
        left to spend, hand somebody a full gauge. */
    method RunBlocks()
      requires Valid()
      modifies this`pendingStatusRows, units
      ensures Valid() && State() == Unblock(old(State()))
    {
      hide State, Views, AgeBlocks, ForceFastest, AgesSomething, AnyFillable, AnyAlive;
      hide Apart, ValidField, Unblock, FieldBlockTurns;
      ghost var b := State();
      UnblockDone(b);
      if !AnyAlive(Views(units)) { return; }
      while !AnyFillable(Views(units))
        invariant Valid() && AnyAlive(Views(units)) && Unblock(State()) == Unblock(b)
        decreases FieldBlockTurns(Views(units))
      {
        ghost var b1 := State();
        RunStep(b1);
        var aged := AgeGaugeBlocks();
        if !aged {
          ForceSomeone();
          return;
        }
      }
      UnblockDone(State());
    }

    /** One unit's gauge runs for some time, if the unit lives. */
    method FillOne(n: nat, step: real)
      requires Apart(units) && n < |units|
      modifies units
      ensures State() == old(State()).(units := old(Views(units))[n := Filled(old(Views(units))[n], step)])
    {
      ghost var us := Views(units);
      if units[n].hp > 0 { units[n].FillGauge(step); }
      OneView(units, us, n, Filled(us[n], step));
    }

    method SetFull(n: nat)
      requires Apart(units) && n < |units|
      modifies units
      ensures State() == old(State()).(units := old(Views(units))[n := old(Views(units))[n].(scv := FULL)])
    {
      ghost var us := Views(units);
      units[n].scv := FULL;
      OneView(units, us, n, us[n].(scv := FULL));
    }

    /** Every gauge that may rise runs on for `step` more time. */
    method RunGauges(step: real)
      requires Valid()
      modifies units
      ensures State() == old(State()).(units := FilledTo(old(Views(units)), |old(Views(units))|, step))
    {
      hide State, Views, FilledTo, ValidField;
      ghost var us := Views(units);
      FilledNone(us, step);
      for n := 0 to |units|
        invariant State() == old(State()).(units := FilledTo(us, n, step))
      {
        FilledStep(us, n, step);
        FillOne(n, step);
      }
    }

    /** Run the gauges on until the first unit that can fill is full. */
    method FillGauges()
      requires Valid()
      modifies units
      ensures Valid() && State() == old(State()).(units := FillUnits(old(Views(units))))
    {
      hide State, Views, Filled, FilledTo, FillUnits, AnyFillable, StepOf, LeadOf, ValidField, Apart;
      ghost var us := Views(units);
      var step := StepOf(Views(units));
      FillUnitsValid(us);
      FillUnitsIs(us);
      FilledEnds(us, if step.None? then 0.0 else step.value);
      if step.None? || step.value <= 0.0 { return; }
      RunGauges(step.value);
      LeadIsFull(us);
      SetFull(LeadOf(Views(units)));
    }

    /** Publish the queue the gauges project. */
    method PublishQueue()
      requires Valid()
      modifies this`turnOrder
      ensures Valid() && State() == old(State()).(turnOrder := QueueOf(old(Views(units))))
    {
      hide Views, Published;
      var us := Views(units);
      PublishedIsSorted(Racers(us), Gauges(us));
      var queue := ProjectQueue(Racers(us), Gauges(us));
      turnOrder := Orders(us, queue);
    }

    /** Seat the next unit and publish the queue. */
    method RollTurnOrder()
      requires Valid()
      modifies this`pendingStatusRows, this`turnOrder, units
      ensures Valid() && State() == Roll(old(State()))
    {
      hide Views, AnyAlive, Unblock, FillUnits, QueueOf;
      ghost var b := State();
      if !AnyAlive(Views(units)) {
        turnOrder := [];
        return;
      }
      UnblockValid(b);
      RunBlocks();
      FillGauges();
      PublishQueue();
    }

    // -- what the engine does outside an attack -------------------------------------

    /** One effect finds its unit, or comes to nothing. */
    method LandOne(e: Effect) returns (landed: bool)
      requires Apart(units)
      modifies units
      ensures State() == old(State()).(units := Land(old(Views(units)), e)) && landed == Lands(old(Views(units)), e)
    {
      hide Holds, Struck;
      ghost var us := Views(units);
      landed := Lands(Views(units), e);
      if landed {
        var i := Find(Views(units), e.target).value;
        units[i].Feel(e);
        OneView(units, us, i, Struck(us[i], e));
      }
    }

    /** The effects take hold in order. -> those that found their unit */
    method LandEffects(es: seq<Effect>) returns (done: seq<Effect>)
      requires Apart(units)
      modifies units
      ensures State() == old(State()).(units := LandAll(old(Views(units)), es)) && done == Landed(old(Views(units)), es)
    {
      hide State, Views, Land, Lands;
      ghost var us := Views(units);
      done := [];
      for n := 0 to |es|
        invariant State() == old(State()).(units := LandAll(us, es[..n]))
        invariant done == Landed(us, es[..n])
      {
        assert es[..n + 1][..n] == es[..n];
        var landed := LandOne(es[n]);
        if landed { done := done + [es[n]]; }
      }
      assert es[..|es|] == es;
    }

    /** Put what one effect of a passive did on the wire. -> its status change, if it was one */
    method AbsorbOne(before: seq<UnitState>, e: Effect) returns (row: seq<Change>)
      modifies this`pendingDotDeaths
      ensures State() == old(State()).(deaths := old(State()).deaths + KillOf(before, old(Views(units)), old(State()).wave, e))
      ensures row == ChangeOf(e)
    {
      hide Dead, Views, Find;
      row := [];
      match e
      case Grant(t, st) => row := [Change(t, st.id, true, st.remaining)];
      case Strip(t, id) => row := [Change(t, id, false, None)];
      case Strike(t, amount) =>
        if amount > 0 && Dead(Views(units), t) {
          var had := Find(before, t);
          var dealt := if had.Some? && before[had.value].hp < amount then before[had.value].hp else amount;
          pendingDotDeaths := pendingDotDeaths + [DeathRow(t, dealt, wave, true)];
        }
      case _ =>
    }

    /** Put what a passive did on the wire: a status change as a row, a kill as a death. */
    method AbsorbPassive(before: seq<UnitState>, done: seq<Effect>)
      modifies this`pendingDotDeaths, this`pendingStatusRows
      ensures State() == Absorbed(old(State()), before, done)
    {
      hide State, Views, KillOf, ChangeOf, Absorbed;
      ghost var b := State();
      var rows: seq<Change> := [];
      AbsorbedNone(b, before);
      for n := 0 to |done|
        invariant rows == ChangesOf(done[..n])
        invariant State() == Killed(b, before, done[..n])
      {
        AbsorbedStep(b, before, done, n);
        var row := AbsorbOne(before, done[n]);
        rows := rows + row;
      }
      assert done[..|done|] == done;
      AbsorbedAll(b, before, done);
      QueueStatusRows(rows);
    }

    method FirePassives(es: seq<Effect>)
      requires Valid()
      modifies this`pendingDotDeaths, this`pendingStatusRows, units
      ensures Valid() && State() == Fire(old(State()), es)
    {
      hide State, Views, Absorbed, Fire;
      FireValid(State(), es);
      FireIsAbsorbed(State(), es);
      var before := Views(units);
      var done := LandEffects(es);
      AbsorbPassive(before, done);
    }

    // -- the turn -------------------------------------------------------------------

    method QueueLoss(d: DeathRow)
      modifies this`pendingDotDeaths
      ensures State() == old(State()).(deaths := old(State()).deaths + [d])
    {
      pendingDotDeaths := pendingDotDeaths + [d];
    }

    method SufferTick(i: nat) returns (dealt: nat)
      requires Apart(units) && i < |units|
      modifies units
      ensures State() == old(State()).(units := old(Views(units))[i := TickHp(old(Views(units))[i])])
      ensures dealt == TickDealt(old(Views(units))[i])
    {
      ghost var us := Views(units);
      dealt := units[i].Suffer();
      OneView(units, us, i, TickHp(us[i]));
    }

    /** Damage and healing over time on the acting unit; what is lost is queued to be told. */
    method TakeTick(i: nat)
      requires Valid() && i < |units|
      modifies this`pendingDotDeaths, units
      ensures Valid() && State() == Tick(old(State()), i)
    {
      hide State, Views, TickHp, TickDealt;
      TickKeepsValid(State(), i);
      TickSteps(State(), i);
      var u := units[i];
      var dot := DotOf(u.statuses);
      var dealt := SufferTick(i);
      if dot > 0 && u.hp > 0 {
        QueueLoss(DeathRow(u.order, dealt, wave, false));
      }
      if u.hp == 0 {
        QueueLoss(DeathRow(u.order, dealt, wave, true));
      }
    }

    /** An immobilised unit's skipped turn. */
    method SkipTurn(i: nat)
      requires Valid() && i < |units|
      modifies this`pendingStatusRows, units
      ensures Valid() && State() == Skip(old(State()), i)
    {
      SkipKeepsValid(State(), i);
      ghost var us := Views(units);
      var u := units[i];
      u.Reload();
      var expired := u.Age(false);
      u.scv := 0.0;
      OneView(units, us, i, TickDurations(TickCooldowns(us[i])).(scv := 0.0));
      QueueStatusRows(Removals(u.View(), expired));
    }

    method NextRound()
      modifies this`round
      ensures State() == old(State()).(round := old(State()).round + 1)
    {
      round := round + 1;
    }

    /** Tick whoever heads the queue, and seat the next if it dies or cannot act. -> was it seated? */
    method StartOnce(depth: nat, fx: Passives) returns (again: bool)
      requires Valid()
      modifies this`pendingDotDeaths, this`pendingStatusRows, this`turnOrder, this`round, units
      ensures Valid() && State() == StartStep(old(State()), depth, fx).b && again == StartStep(old(State()), depth, fx).Again?
    {
      hide State, Views, Roll, Fire, Tick, Skip, Immobilized, Acting, Apart, ValidField;
      var at := Acting(State());
      if at.None? { return false; }
      var i := at.value;
      TakeTick(i);
      assert State().units[i] == units[i].View();
      if units[i].hp == 0 {
        FirePassives(fx(OnDeath(depth), State()));
        RollTurnOrder();
        return true;
      }
      FirePassives(fx(TurnStart(depth), State()));
      assert State().units[i] == units[i].View();
      if Immobilized(units[i].View()) {
        SkipTurn(i);
        RollTurnOrder();
        NextRound();
        return true;
      }
      again := false;
    }

    /** Settle the head of the queue, with as many tries as there are units. */
    method StartTurn(depth: nat, fx: Passives)
      requires Valid()
      modifies this`pendingDotDeaths, this`pendingStatusRows, this`turnOrder, this`round, units
      ensures Valid() && State() == StartOfTurn(old(State()), depth, fx)
      decreases |units| + 1 - depth
    {
      hide State, Views, StartStep, Apart, ValidField;
      if depth > |units| { return; }
      var again := StartOnce(depth, fx);
      if again { StartTurn(depth + 1, fx); }
    }

    /** The turn taken costs its unit the gauge. */
    method SpendAction(i: nat)
      requires Valid() && i < |units|
      modifies units
      ensures Valid() && State() == old(State()).(units := old(Views(units))[i := SpendGauge(TickCooldowns(old(Views(units))[i]))])
    {
      FinishSteps(State(), i);
      ghost var us := Views(units);
      units[i].Reload();
      units[i].SpendTurn();
      OneView(units, us, i, SpendGauge(TickCooldowns(us[i])));
    }

    method AgeUnitAt(i: nat)
      requires Valid() && i < |units|
      modifies units
      ensures Valid() && State() == old(State()).(units := old(Views(units))[i := TickDurations(old(Views(units))[i])])
    {
      ghost var us := Views(units);
      var _ := units[i].Age(false);
      OneView(units, us, i, TickDurations(us[i]));
    }

    /** The actor reloads, spends its gauge, and after its passives its durations run. */
    method FinishTurn(i: nat, fx: Passives)
      requires Valid() && i < |units|
      modifies this`pendingDotDeaths, this`pendingStatusRows, units
      ensures Valid() && State() == FinishAction(old(State()), i, fx)
    {
      hide State, Views, SpendGauge, TickCooldowns, Fire, TickDurations;
      SpendAction(i);
      FirePassives(fx(AfterAction, State()));
      AgeUnitAt(i);
    }

    method CloseTurn()
      modifies this`round, this`turnOpen
      ensures State() == old(State()).(round := old(State()).round + 1, turnOpen := false)
    {
      round := round + 1;
      turnOpen := false;
    }

    /** Close the acting unit's turn and seat the next unit. */
    method RotateTurn(fx: Passives)
      requires Valid()
      modifies this`pendingDotDeaths, this`pendingStatusRows, this`turnOrder, this`round, this`turnOpen, units
      ensures Valid() && State() == Rotate(old(State()), fx)
    {
      hide State, Views, Roll, AgeBlocks, FinishAction, Acting, Apart, ValidField;
      var at := Acting(State());
      if at.Some? { FinishTurn(at.value, fx); }
      AgedValid(State());
      var _ := AgeGaugeBlocks();
      RollTurnOrder();
      CloseTurn();
    }

    /** End the acting unit's turn, and start the next one. */
    method EndTurn(fx: Passives)
      requires Valid()
      modifies this`pendingDotDeaths, this`pendingStatusRows, this`turnOrder, this`round, this`turnOpen, units
      ensures Valid() && State() == Turns.EndTurn(old(State()), fx)
    {
      hide State, Views, Rotate, StartOfTurn, Apart, ValidField;
      RotateTurn(fx);
      StartTurn(0, fx);
    }

    // -- what goes out --------------------------------------------------------------

    /** Take queued losses, at most `limit` of them: deaths first when there is a limit. What
        cannot be told any more is dropped on the way; what the limit leaves stays queued. */
    method DotDeathCmds(limit: Option<nat>) returns (sent: seq<DeathRow>)
      requires Valid()
      modifies this`pendingDotDeaths
      ensures Valid() && State() == old(State()).(deaths := Drain(old(State()), limit).kept)
      ensures sent == Drain(old(State()), limit).sent
    {
      hide Walk, DeathsFirst, Views, ValidField, Apart;
      var now := State();
      var deaths := if limit.Some? then DeathsFirst(pendingDotDeaths) else pendingDotDeaths;
      pendingDotDeaths := [];
      var held;
      sent, held := TakeRows(now, deaths, limit);
      pendingDotDeaths := held + pendingDotDeaths;
    }

    /** Record what the client has been told: a row with no rounds left takes a status away. */
    method RecordTold(status: seq<Change>)
      modifies this`statusTold
      ensures State() == old(State()).(told := Tell(old(State()).told, status))
    {
      ghost var told := statusTold;
      for n := 0 to |status|
        invariant statusTold == Tell(told, status[..n])
      {
        assert status[..n + 1][..n] == status[..n];
        var key := KeyOf(status[n]);
        statusTold := if Rounds(status[n]) == 0 then statusTold - {key} else statusTold + {key};
      }
      assert status[..|status|] == status;
    }

    /** Attach the queued status rows of this wave behind an attack's own, and record what the
        client has been told. */
    method DrainPendingStatus(own: seq<Change>, wireable: int -> bool) returns (status: seq<Change>)
      modifies this`pendingStatusRows, this`statusTold
      ensures status == own + OnWire(OfWave(old(State()).rows, old(State()).wave), wireable)
      ensures State() == old(State()).(rows := [], told := Tell(old(State()).told, status))
    {
      var queued := RowsOnWire(pendingStatusRows, wave, wireable);
      status := own + queued;
      pendingStatusRows := [];
      RecordTold(status);
    }

    /** A skill's effects take hold, and the damage they deal is put on record. */
    method Resolve(es: seq<Effect>) returns (done: seq<Effect>)
      requires Apart(units)
      modifies this`damageSum, units
      ensures State() == old(State()).(units := LandAll(old(State()).units, es), damageSum := old(State()).damageSum + DealtBy(done))
      ensures done == Landed(old(State()).units, es)
    {
      hide State, Views, LandAll, Landed, DealtBy;
      done := LandEffects(es);
      CountDamage(done);
    }

    method CountDamage(done: seq<Effect>)
      modifies this`damageSum
      ensures State() == old(State()).(damageSum := old(State()).damageSum + DealtBy(done))
    {
      hide Views, DealtBy;
      damageSum := damageSum + DealtBy(done);
    }

    /** Tell of what a skill has done. */
    method Announce(done: seq<Effect>, target: nat, wireable: int -> bool) returns (m: Message)
      modifies this`pendingStatusRows, this`statusTold
      ensures State() == old(State()).(rows := [], told := Tell(old(State()).told, RowsTold(old(State()), done, wireable)))
      ensures m == Telling(old(State()), done, target, wireable)
    {
      hide State, Views, HitsOf, OnWire, OfWave, ChangesOf, Tell;
      var hits := HitsOf(State().units, done);
      var status := DrainPendingStatus(OnWire(ChangesOf(done), wireable), wireable);
      m := Attack(if hits == [] then [Hit(target, 0, false)] else hits, status);
    }

    /** Resolve a skill use, and the attack that tells of it. */
    method AttackCmd(attacker: nat, defender: nat, slot: int, env: Env) returns (m: Message)
      requires Valid()
      modifies this`pendingStatusRows, this`statusTold, this`damageSum, units
      ensures Valid() && (State(), m) == ResolveSkill(old(State()), attacker, defender, slot, env)
    {
      hide State, Views, Find, Apart, ValidField, LandAll, Landed, Tell, RowsTold, Telling, DealtBy, ResolveSkill, EffectsOf;
      ghost var b := State();
      ResolveValid(b, attacker, defender, slot, env);
      var target := if Find(State().units, defender).Some? then defender else attacker;
      var es := EffectsOf(State(), attacker, defender, slot, env);
      var done := Resolve(es);
      AttackIs(b, attacker, defender, slot, env, es, done, target, State());
      m := Announce(done, target, env.wireable);
    }

    /** The skill used goes on cooldown. */
    method SpendSkill(attacker: nat, slot: int)
      requires Valid()
      modifies units
      ensures Valid() && State() == Replies.SpendSkill(old(State()), attacker, slot)
    {
      ghost var us := Views(units);
      SpendSkillValid(State(), attacker, slot);
      match Find(Views(units), attacker)
      case None =>
      case Some(i) =>
        units[i].Use(slot);
        OneView(units, us, i, UseSkill(us[i], slot));
    }

    /** Exchange two units' slots and places in the queue. */
    method SwapUnits(incoming: nat, outgoing: nat) returns (ok: bool)
      requires Valid()
      modifies this`turnOrder, units
      ensures Valid() && ok == Replies.SwapUnits(old(State()), incoming, outgoing).Some?
      ensures State() == if ok then Replies.SwapUnits(old(State()), incoming, outgoing).value else old(State())
    {
      hide State, Views, Find, Swap;
      SwapKeepsValid(State(), incoming, outgoing);
      var i, j := Find(Views(units), incoming), Find(Views(units), outgoing);
      if i.None? || j.None? || i == j { return false; }
      ExchangeSlots(i.value, j.value);
      ExchangePlaces(incoming, outgoing);
      ok := true;
    }

    // -- resuming -------------------------------------------------------------------

    method RestoreOne(sv: SavedUnit)
      requires Apart(units)
      modifies units
      ensures State() == old(State()).(units := PatchOne(old(Views(units)), sv))
    {
      ghost var us := Views(units);
      match Find(Views(units), sv.order)
      case None =>
      case Some(i) =>
        units[i].RestoreState(sv);
        OneView(units, us, i, Patched(us[i], sv));
    }

    /** Patch in what a save says of the units and of the battle, before the queue is checked. */
    method Patch(sv: Saved)
      requires Valid() && ValidField(PatchedBattle(State(), sv).units)
      modifies this`round, this`damageSum, this`auto, this`enemyTotals, this`turnOrder, units
      ensures Valid() && State() == PatchedBattle(old(State()), sv)
    {
      hide State, Views, PatchOne, Apart, ValidField;
      ghost var us := Views(units);
      for n := 0 to |sv.units|
        invariant State() == old(State()).(units := PatchAll(us, sv.units[..n]))
        modifies units
      {
        PatchStep(us, sv.units, n);
        RestoreOne(sv.units[n]);
      }
      assert sv.units[..|sv.units|] == sv.units;
      SetSaved(sv);
    }

    /** A queue with nobody left in it is rolled afresh. */
    method RollIfEmpty()
      requires Valid()
      modifies this`pendingStatusRows, this`turnOrder, units
      ensures Valid() && State() == if old(State()).turnOrder == [] then Roll(old(State())) else old(State())
    {
      if turnOrder == [] { RollTurnOrder(); }
    }

    method SetSaved(sv: Saved)
      modifies this`round, this`damageSum, this`auto, this`enemyTotals, this`turnOrder
      ensures State() == old(State()).(
                round := sv.round, damageSum := sv.damageSum, auto := sv.auto, totals := sv.totals, turnOrder := OnField(old(State()).units, sv.turnOrder))
    {
      hide OnField, Views;
      var us := Views(units);
      round, damageSum, auto, enemyTotals, turnOrder := sv.round, sv.damageSum, sv.auto, sv.totals, OnField(us, sv.turnOrder);
    }

    // -- flags ----------------------------------------------------------------------

    method SetAuto(on: bool)
      requires Valid()
      modifies this`auto
      ensures Valid() && State() == old(State()).(auto := on)
    {
      auto := on;
    }

    method OpenTurn()
      requires Valid()
      modifies this`turnOpen, this`waveBegun
      ensures Valid() && State() == old(State()).(turnOpen := true, waveBegun := true)
    {
      turnOpen, waveBegun := true, true;
    }

    method ReopenTurn()
      requires Valid()
      modifies this`turnOpen
      ensures Valid() && State() == old(State()).(turnOpen := false)
    {
      turnOpen := false;
    }

    // -- waves ----------------------------------------------------------------------

    /** Fold an outgoing enemy's totals into the record of its order. */
    method BankEnemy(u: Unit)
      modifies this`enemyTotals
      ensures enemyTotals == BankOne(old(enemyTotals), u.View())
    {
      if u.order !in enemyTotals {
        enemyTotals := enemyTotals[u.order := Total(u.index, u.charId, u.dmgDone, u.dmgTaken, u.healed)];
      } else {
        var t := enemyTotals[u.order];
        enemyTotals := enemyTotals[u.order := Total(t.index, u.charId, t.done + u.dmgDone, t.taken + u.dmgTaken, t.healed + u.healed)];
      }
    }

    /** Bank every one of these units. */
    method BankEnemies(gone: seq<Unit>)
      modifies this`enemyTotals
      ensures State() == old(State()).(totals := BankAll(old(State()).totals, old(Views(gone))))
    {
      hide BankOne, Views;
      ghost var totals := enemyTotals;
      for n := 0 to |gone|
        invariant enemyTotals == BankAll(totals, Views(gone)[..n])
        invariant Views(units) == old(Views(units)) && Views(gone) == old(Views(gone))
      {
        BankStep(totals, Views(gone)[..n], gone[n].View());
        assert Views(gone)[..n + 1] == Views(gone)[..n] + [gone[n].View()];
        BankEnemy(gone[n]);
      }
      assert Views(gone)[..|gone|] == Views(gone);
    }

    method SetUnits(us: seq<Unit>)
      modifies this`units
      ensures units == us && State() == old(State()).(units := old(Views(us)))
    {
      units := us;
    }

    /** Bank the enemies on the field and let them go. */
    method DismissEnemies()
      requires Apart(units)
      modifies this`units, this`enemyTotals
      ensures Apart(units) && forall u :: u in units ==> u in old(units)
      ensures State() == old(State()).(
                units := OfTeam(old(Views(units)), TEAM_PLAYER),
                totals := BankAll(old(State()).totals, OfTeam(old(Views(units)), TEAM_ENEMY)))
    {
      hide State, Views, BankAll, Apart;
      TeamOfViews(units, TEAM_ENEMY);
      BankEnemies(TeamOf(units, TEAM_ENEMY));
      TeamOfViews(units, TEAM_PLAYER);
      TeamOfApart(units, TEAM_PLAYER);
      SetUnits(TeamOf(units, TEAM_PLAYER));
    }

    /** New units take the field behind those on it. */
    method Enlist(more: seq<Unit>)
      requires Apart(units) && Apart(more) && forall u :: u in more ==> u !in units
      modifies this`units
      ensures Apart(units) && units == old(units) + more
      ensures State() == old(State()).(units := old(Views(units)) + old(Views(more)))
    {
      ViewsAppend(units, more);
      AppendApart(units, more);
      units := units + more;
    }

    /** The mobs of the battle's wave take the field. */
    method AddMobs(stage: Stage)
      requires Apart(units)
      modifies this`units
      ensures Apart(units) && forall i :: 0 <= i < |units| ==> units[i] in old(units) || fresh(units[i])
      ensures State() == old(State()).(units := old(Views(units)) + WaveMobs(stage, wave))
    {
      hide WaveMobs, State, Views, Apart;
      var mobs := NewUnits(WaveMobs(stage, wave));
      Enlist(mobs);
      forall i | 0 <= i < |units| ensures units[i] in old(units) || units[i] in mobs {
        EitherList(old(units), mobs, i);
      }
    }

    method AddParty(s: Setup)
      requires units == []
      modifies this`units
      ensures Valid() && State() == old(State()).(units := Party(s))
      ensures forall i :: 0 <= i < |units| ==> fresh(units[i])
    {
      hide Party, Apart, ValidField, Views;
      BuildsValid(s);
      units := NewUnits(Party(s));
      forall i | 0 <= i < |units| ensures units[i] in units {
      }
    }

    /** Replace the enemy side with the mobs of the battle's wave. */
    method SpawnWave(stage: Stage)
      requires Valid()
      modifies this`units, this`enemyTotals
      ensures Valid() && forall i :: 0 <= i < |units| ==> units[i] in old(units) || fresh(units[i])
      ensures State() == Replies.SpawnWave(old(State()), stage)
    {
      hide State, Views, BankAll, WaveMobs, ValidField, Apart;
      SpawnKeepsValid(State(), stage);
      DismissEnemies();
      AddMobs(stage);
    }

    method EmptyGauge(n: nat)
      requires Apart(units) && n < |units|
      modifies units
      ensures State() == old(State()).(units := old(Views(units))[n := old(Views(units))[n].(scv := 0.0, pendingScv := 0.0)])
    {
      ghost var us := Views(units);
      units[n].scv := 0.0;
      units[n].pendingScv := 0.0;
      OneView(units, us, n, us[n].(scv := 0.0, pendingScv := 0.0));
    }

    /** Every gauge restarts with the wave. */
    method EmptyGauges()
      requires Apart(units)
      modifies units
      ensures State() == old(State()).(units := ResetGauges(old(Views(units))))
    {
      hide State, Views, ResetTo, Apart;
      ghost var us := Views(units);
      ResetEnds(us);
      for n := 0 to |units|
        invariant State() == old(State()).(units := ResetTo(us, n))
      {
        ResetStep(us, n);
        EmptyGauge(n);
      }
    }

    method ForgetNews()
      modifies this`wave, this`pendingStatusRows, this`pendingDotDeaths, this`statusTold
      ensures State() == old(State()).(wave := old(State()).wave + 1, rows := [], deaths := [], told := {})
    {
      hide Views;
      wave := wave + 1;
      pendingStatusRows, pendingDotDeaths, statusTold := [], [], {};
    }

    method EnterWave(stage: Stage)
      requires Valid()
      modifies this`units, this`enemyTotals, this`wave, this`pendingStatusRows, this`pendingDotDeaths, this`statusTold
      ensures Valid() && forall i :: 0 <= i < |units| ==> units[i] in old(units) || fresh(units[i])
      ensures State() == Entered(old(State()), stage)
    {
      hide State, Views, Apart, ValidField, Replies.SpawnWave;
      ForgetNews();
      SpawnWave(stage);
    }

    /** The next wave's field, its battle-start passives applied and its gauges empty. */
    method OpenField(env: Env)
      requires Valid()
      modifies this`units, this`enemyTotals, this`wave, this`pendingStatusRows, this`pendingDotDeaths, this`statusTold, units
      ensures Valid() && forall i :: 0 <= i < |units| ==> units[i] in old(units) || fresh(units[i])
      ensures State() == OpenedField(old(State()), env)
    {
      hide State, Views, Apart, ValidField, Entered, Started;
      OpenedFieldValid(State(), env);
      EnterWave(env.stage);
      StartField(env.fx);
    }

    /** Battle-start passives take hold, and every gauge restarts. */
    method StartField(fx: Passives)
      requires Apart(units)
      modifies units
      ensures State() == Started(old(State()), fx)
    {
      hide State, Views, Apart, LandAll, ResetGauges;
      var _ := LandEffects(fx(BattleStart, State()));
      EmptyGauges();
    }

    method LowerFlags()
      modifies this`waveBegun, this`turnOpen
      ensures State() == old(State()).(waveBegun := false, turnOpen := false)
    {
      waveBegun, turnOpen := false, false;
    }

    /** Bring in the next wave: queues forgotten, enemies replaced, openings applied, gauges
        restarted, the queue rolled. */
    method AdvanceWave(env: Env)
      requires Valid()
      modifies this, units
      ensures Valid() && State() == Replies.AdvanceWave(old(State()), env)
      ensures forall i :: 0 <= i < |units| ==> units[i] in old(units) || fresh(units[i])
    {
      hide State, Views, Apart, ValidField, Roll, OpenedField, Replies.AdvanceWave;
      OpenedFieldValid(State(), env);
      OpenedFieldRolls(State(), env);
      OpenField(env);
      RollTurnOrder();
      LowerFlags();
    }

    method ExchangeSlots(i: nat, j: nat)
      requires Apart(units) && i < |units| && j < |units| && i != j
      modifies units
      ensures var us := old(Views(units));
              State() == old(State()).(units := us[i := us[i].(index := us[j].index)][j := us[j].(index := us[i].index)])
    {
      ghost var us := Views(units);
      units[i].index, units[j].index := units[j].index, units[i].index;
      OneView(units, us[i := us[i].(index := us[j].index)], j, us[j].(index := us[i].index));
    }

    method ExchangePlaces(incoming: nat, outgoing: nat)
      modifies this`turnOrder
      ensures State() == old(State()).(turnOrder := Swap(old(State()).turnOrder, incoming, outgoing))
    {
      turnOrder := Swap(turnOrder, incoming, outgoing);
    }
  }
}
