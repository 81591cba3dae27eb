/** Whole sessions: what every request keeps, and what therefore holds in every reachable state. */
module Sessions {
  import opened Wrappers
  import opened Projection
  import opened Units
  import opened TurnQueue
  import opened Turns
  import opened News
  import opened Outbound
  import opened Replies
  import opened ClientPicture

  // -- the battle's own invariant ---------------------------------------------------

  /** Every unit has its own order: the party below the enemies' base, the enemies from it. */
  ghost predicate Rostered(us: seq<UnitState>, base: nat) {
    && DistinctOrders(us)
    && forall i :: 0 <= i < |us| ==>
         && (us[i].team == TEAM_PLAYER || us[i].team == TEAM_ENEMY)
         && (us[i].team == TEAM_PLAYER <==> us[i].order < base)
  }

  /** The queue names units of the field, and is empty only when nobody lives. */
  ghost predicate Seat(b: BattleState) {
    && (b.turnOrder == [] ==> !AnyAlive(b.units))
    && forall k :: 0 <= k < |b.turnOrder| ==> Find(b.units, b.turnOrder[k]).Some?
  }

  ghost predicate Sound(b: BattleState, base: nat) {
    ValidField(b.units) && Rostered(b.units, base) && Seat(b)
  }

  lemma RosteredLasts(us: seq<UnitState>, us': seq<UnitState>, base: nat)
    requires SameRoster(us, us') && Rostered(us, base)
    ensures Rostered(us', base)
  {
  }

  lemma SeatLasts(b: BattleState, b': BattleState)
    requires Seat(b) && SameRoster(b.units, b'.units) && b'.turnOrder == b.turnOrder
    ensures Seat(b')
  {
    forall k | 0 <= k < |b'.turnOrder| ensures Find(b'.units, b'.turnOrder[k]).Some? {
      SameRosterFinds(b.units, b'.units, b.turnOrder[k]);
    }
    if AnyAlive(b'.units) {
      var i :| 0 <= i < |b'.units| && Alive(b'.units[i]);
      assert Alive(b.units[i]);
    }
  }

  lemma QueueInField(us: seq<UnitState>)
    requires ValidField(us)
    ensures forall k :: 0 <= k < |QueueOf(us)| ==> Find(us, QueueOf(us)[k]).Some?
  {
    PublishedIsSorted(Racers(us), Gauges(us));
  }

  lemma RollSeatsField(b: BattleState)
    requires ValidField(b.units)
    ensures Seat(Roll(b))
  {
    if AnyAlive(b.units) {
      RollSeats(b);
      UnblockValid(b);
      FillUnitsValid(Unblock(b).units);
      QueueInField(FillUnits(Unblock(b).units));
    }
  }

  lemma {:induction false} StartKeepsSeat(b: BattleState, depth: nat, fx: Passives)
    requires ValidField(b.units) && DistinctOrders(b.units) && HeadLives(b) && Seat(b)
    ensures Seat(StartOfTurn(b, depth, fx))
    decreases |b.units| + 1 - depth
  {
    hide Roll, Fire, Tick, Skip, Immobilized, Follows, Seat;
    var a := Acting(b);
    if a.Some? && depth <= |b.units| {
      var i := a.value;
      var b1 := Tick(b, i);
      if !Alive(b1.units[i]) {
        var b2 := Fire(b1, fx(OnDeath(depth), b1));
        OpenFollows(b, i, fx(OnDeath(depth), b1));
        ReseatFollows(b2, Roll(b2).round);
        RollSeatsField(b2);
        StartKeepsSeat(Roll(b2), depth + 1, fx);
      } else {
        var b2 := Fire(b1, fx(TurnStart(depth), b1));
        OpenFollows(b, i, fx(TurnStart(depth), b1));
        if Immobilized(b2.units[i]) {
          SkipValid(b2, i);
          SkipReseatFollows(b2, i);
          RollSeatsField(Skip(b2, i));
          var b3 := Roll(Skip(b2, i));
          SeatByRound(b3);
          StartKeepsSeat(b3.(round := b3.round + 1), depth + 1, fx);
        } else {
          FiredSeat(b, i, fx(TurnStart(depth), b1));
        }
      }
    }
  }

  lemma SeatByRound(b: BattleState)
    requires Seat(b)
    ensures Seat(b.(round := b.round + 1)) && Seat(b.(round := b.round + 1, turnOpen := false))
  {
  }

  lemma FiredSeat(b: BattleState, i: nat, es: seq<Effect>)
    requires ValidField(b.units) && DistinctOrders(b.units) && i < |b.units| && Alive(b.units[i]) && Seat(b)
    ensures Seat(Fire(Tick(b, i), es))
  {
    OpenFollows(b, i, es);
    SeatLasts(b, Fire(Tick(b, i), es));
  }

  lemma RotateSeats(b: BattleState, fx: Passives)
    requires ValidField(b.units)
    ensures Seat(Rotate(b, fx))
  {
    var a := Acting(b);
    var b1 := if a.None? then b else FinishAction(b, a.value, fx);
    hide FinishAction, Roll, Seat;
    AgedValid(b1);
    RollSeatsField(AgeBlocks(b1));
    SeatByRound(Roll(AgeBlocks(b1)));
  }

  lemma EndTurnSound(b: BattleState, fx: Passives, base: nat)
    requires ValidField(b.units) && Rostered(b.units, base)
    ensures Sound(EndTurn(b, fx), base)
  {
    hide Rotate, Seat, Follows;
    EndTurnFollows(b, fx);
    RotateSeats(b, fx);
    RotateFollows(b, fx);
    StartKeepsSeat(Rotate(b, fx), 0, fx);
    FollowsRostered(b, EndTurn(b, fx), base);
  }

  lemma FollowsRostered(b: BattleState, b': BattleState, base: nat)
    requires Follows(b, b') && Rostered(b.units, base)
    ensures Rostered(b'.units, base)
  {
  }

  // -- playing a turn ---------------------------------------------------------------

  ghost predicate Fine(b: BattleState, c: Client, base: nat) {
    Sound(b, base) && Informed(b, c)
  }

  lemma SpendQuiet(b: BattleState, at: nat, slot: int)
    ensures Follows(b, SpendSkill(b, at, slot)) && SpendSkill(b, at, slot).turnOrder == b.turnOrder
  {
    QuietFollows(b, SpendSkill(b, at, slot));
  }

  lemma HearOne(c: Client, m: Message)
    ensures Hear(c, [m]) == Hear1(c, m)
  {
    assert [m][..0] == [];
  }

  lemma {:induction false} HearBoth(c: Client, a: seq<Message>, b: seq<Message>)
    ensures Hear(c, a + b) == Hear(Hear(c, a), b)
    decreases |b|
  {
    if b == [] {
      assert a + b == a;
    } else {
      HearBoth(c, a, b[..|b| - 1]);
      assert (a + b)[..|a + b| - 1] == a + b[..|b| - 1];
    }
  }

  lemma EndTurnFine(b: BattleState, fx: Passives, c: Client, base: nat)
    requires ValidField(b.units) && Rostered(b.units, base) && Informed(b, c)
    ensures Fine(EndTurn(b, fx), c, base)
  {
    EndTurnSound(b, fx, base);
    EndTurnFollows(b, fx);
    hide EndTurn;
    FollowsInforms(b, EndTurn(b, fx), c);
  }

  lemma PlayTurnFine(b: BattleState, team: int, env: Env, c: Client, base: nat)
    requires Fine(b, c, base)
    ensures var a := PlayTurn(b, team, env); Fine(a.b, Hear(c, a.msgs), base)
  {
    var m := AutoMove(b, team, env);
    if m.Some? {
      var at, de, slot := m.value.attacker, m.value.defender, m.value.slot;
      AttackInforms(b, at, de, slot, env, c);
      ResolveValid(b, at, de, slot, env);
      var s := ResolveSkill(b, at, de, slot, env);
      hide ResolveSkill, EndTurn, Follows, Informed;
      HearOne(c, s.1);
      RosteredLasts(b.units, s.0.units, base);
      SpendQuiet(s.0, at, slot);
      SpendSkillValid(s.0, at, slot);
      var b1 := SpendSkill(s.0, at, slot);
      FollowsInforms(s.0, b1, Hear1(c, s.1));
      FollowsRostered(s.0, b1, base);
      EndTurnFine(b1, env.fx, Hear1(c, s.1), base);
    }
  }

  lemma PlayerAttackFine(b: BattleState, at: nat, de: nat, key: int, env: Env, c: Client, base: nat)
    requires Fine(b, c, base)
    ensures var a := PlayerAttack(b, at, de, key, env); Fine(a.b, Hear(c, a.msgs), base)
  {
    var slot := SlotFor(b, at, key);
    var b1 := SpendSkill(b, at, slot);
    SpendQuiet(b, at, slot);
    SpendSkillValid(b, at, slot);
    FollowsInforms(b, b1, c);
    FollowsRostered(b, b1, base);
    AttackInforms(b1, at, de, slot, env, c);
    ResolveValid(b1, at, de, slot, env);
    var s := ResolveSkill(b1, at, de, slot, env);
    hide ResolveSkill, EndTurn, Follows, Informed;
    HearOne(c, s.1);
    RosteredLasts(b1.units, s.0.units, base);
    EndTurnFine(s.0, env.fx, Hear1(c, s.1), base);
  }

  lemma Aside(c: Client, m: Message, ms: seq<Message>)
    requires Hear1(c, m) == c
    ensures Hear(c, [m] + ms) == Hear(c, ms)
  {
    HearBoth(c, [m], ms);
    HearOne(c, m);
  }

  // -- the next wave ----------------------------------------------------------------

  /** The party as it stood, and the new wave's mobs behind it. */
  ghost function NewField(b: BattleState, env: Env): seq<UnitState> {
    OfTeam(b.units, TEAM_PLAYER) + WaveMobs(env.stage, b.wave + 1)
  }

  ghost predicate SameStands(us: seq<UnitState>, us': seq<UnitState>) {
    && |us'| == |us|
    && forall i :: 0 <= i < |us| ==> SameBuild(us[i], us'[i]) && Alive(us'[i]) == Alive(us[i])
  }

  /** What the battle-start passives of the next wave do. */
  function OpeningOf(b: BattleState, env: Env): seq<Effect> {
    env.fx(BattleStart, SpawnWave(b.(wave := b.wave + 1, rows := [], deaths := [], told := {}), env.stage))
  }

  lemma OpenWaveIs(b: BattleState, env: Env)
    ensures OpenWave(b, env).units == ResetGauges(LandAll(NewField(b, env), OpeningOf(b, env)))
    ensures OpenWave(b, env).rows == [] && OpenWave(b, env).told == {}
  {
    hide LandAll, BankAll, OfTeam, WaveMobs, ResetGauges;
  }

  /** Battle-start passives may kill, but they move nobody and raise nobody. */
  lemma OpenWaveKeepsRoster(b: BattleState, env: Env)
    ensures SameRoster(NewField(b, env), OpenWave(b, env).units)
  {
    OpenWaveIs(b, env);
    LandAllKeeps(NewField(b, env), OpeningOf(b, env));
    hide LandAll, NewField, OpenWave, OpeningOf, SameRoster;
    SameRosterReset(NewField(b, env), LandAll(NewField(b, env), OpeningOf(b, env)));
  }

  lemma SameRosterReset(us: seq<UnitState>, us': seq<UnitState>)
    requires SameRoster(us, us')
    ensures SameRoster(us, ResetGauges(us'))
  {
  }

  /** The battle-start passives of the next wave kill a member of the party who lives. */
  ghost predicate OpeningKills(b: BattleState, env: Env) {
    exists i :: 0 <= i < |NewField(b, env)| && i < |OpenWave(b, env).units| && NewField(b, env)[i].team == TEAM_PLAYER
             && Alive(NewField(b, env)[i]) && !Alive(OpenWave(b, env).units[i])
  }

  lemma StandsOn(us: seq<UnitState>, us1: seq<UnitState>, us2: seq<UnitState>)
    requires SameStands(us, us1) && SameStands(us1, us2)
    ensures SameStands(us, us2)
  {
  }

  lemma StandsStill(us: seq<UnitState>)
    ensures SameStands(us, us) && SameStands(us, ForceFastest(us))
  {
  }

  lemma {:induction false} UnblockStands(b: BattleState)
    ensures SameStands(b.units, Unblock(b).units)
    decreases FieldBlockTurns(b.units)
  {
    hide SameStands, AgeBlocks, ForceFastest;
    StandsStill(b.units);
    if AnyAlive(b.units) && !AnyFillable(b.units) && AgesSomething(b.units) {
      AgingEnds(b);
      AgeStands(b);
      UnblockStands(AgeBlocks(b));
      StandsOn(b.units, AgeBlocks(b).units, Unblock(AgeBlocks(b)).units);
    }
  }

  lemma AgeStands(b: BattleState)
    ensures SameStands(b.units, AgeBlocks(b).units)
  {
  }

  lemma RollStands(b: BattleState)
    requires ValidField(b.units)
    ensures SameStands(b.units, Roll(b).units)
  {
    UnblockStands(b);
  }

  lemma RosterStands(us: seq<UnitState>, us1: seq<UnitState>, us2: seq<UnitState>)
    requires SameRoster(us, us1) && SameStands(us1, us2)
    ensures SameRoster(us, us2)
  {
  }

  lemma AdvanceStands(b: BattleState, env: Env)
    requires ValidField(b.units)
    ensures SameStands(OpenWave(b, env).units, AdvanceWave(b, env).units)
    ensures SameRoster(NewField(b, env), AdvanceWave(b, env).units)
    ensures AdvanceWave(b, env).deaths == [] && AdvanceWave(b, env).wave == b.wave + 1
  {
    OpenWaveKeepsRoster(b, env);
    OpenWaveValid(b, env);
    RollStands(OpenWave(b, env));
    RollFollows(OpenWave(b, env));
    RollAddsNothing(OpenWave(b, env));
    OpenWaveForgets(b, env);
    hide OpenWave, Roll, NewField, SameStands, SameRoster;
    RosterStands(NewField(b, env), OpenWave(b, env).units, AdvanceWave(b, env).units);
  }

  lemma OpenWaveForgets(b: BattleState, env: Env)
    ensures OpenWave(b, env).deaths == [] && OpenWave(b, env).wave == b.wave + 1
  {
    hide LandAll, BankAll, OfTeam, WaveMobs;
  }

  lemma {:induction false} UnblockAddsNothing(b: BattleState)
    ensures Unblock(b).deaths == b.deaths
    decreases FieldBlockTurns(b.units)
  {
    if AnyAlive(b.units) && !AnyFillable(b.units) && AgesSomething(b.units) {
      AgingEnds(b);
      UnblockAddsNothing(AgeBlocks(b));
    }
  }

  lemma RollAddsNothing(b: BattleState)
    requires ValidField(b.units)
    ensures Roll(b).deaths == b.deaths
  {
    UnblockAddsNothing(b);
  }

  lemma {:induction false} OfTeamHas(us: seq<UnitState>, team: int)
    ensures forall u :: u in OfTeam(us, team) <==> u in us && u.team == team
    ensures DistinctOrders(us) ==> DistinctOrders(OfTeam(us, team))
  {
    if us != [] {
      var n := |us| - 1;
      OfTeamHas(us[..n], team);
      assert us == us[..n] + [us[n]];
      var them := OfTeam(us[..n], team);
      assert OfTeam(us, team) == if us[n].team == team then them + [us[n]] else them;
      if DistinctOrders(us) {
        DistinctSnoc(us, them);
      }
    }
  }

  /** The last of a field keeps its order to itself, among whoever of the others is picked. */
  lemma DistinctSnoc(us: seq<UnitState>, them: seq<UnitState>)
    requires us != [] && DistinctOrders(us) && forall u :: u in them ==> u in us[..|us| - 1]
    ensures DistinctOrders(us[..|us| - 1])
    ensures DistinctOrders(them) ==> DistinctOrders(them + [us[|us| - 1]])
  {
    var n := |us| - 1;
    forall k | 0 <= k < |them| ensures them[k].order != us[n].order {
      assert them[k] in them;
      var m :| 0 <= m < n && us[..n][m] == them[k];
    }
  }

  lemma {:induction false} MobsRostered(base: nat, slots: seq<Option<Mob>>, n: nat)
    requires n <= |slots|
    ensures DistinctOrders(MobsOf(base, slots, n))
    ensures forall k :: 0 <= k < |MobsOf(base, slots, n)| ==>
              var u := MobsOf(base, slots, n)[k]; u.team == TEAM_ENEMY && base <= u.order < base + n
  {
    if n > 0 {
      MobsRostered(base, slots, n - 1);
    }
  }

  lemma NewFieldRostered(b: BattleState, env: Env)
    requires Rostered(b.units, env.stage.enemyBase)
    ensures Rostered(NewField(b, env), env.stage.enemyBase)
  {
    var us := OfTeam(b.units, TEAM_PLAYER);
    OfTeamHas(b.units, TEAM_PLAYER);
    forall k | 0 <= k < |us| ensures us[k].order < env.stage.enemyBase {
      assert us[k] in b.units;
    }
    if env.stage.groups != [] {
      var g := env.stage.groups[if b.wave + 1 <= |env.stage.groups| then b.wave else |env.stage.groups| - 1];
      MobsRostered(env.stage.enemyBase, g, |g|);
    }
  }

  lemma AdvanceSound(b: BattleState, env: Env)
    requires ValidField(b.units) && Rostered(b.units, env.stage.enemyBase)
    ensures Sound(AdvanceWave(b, env), env.stage.enemyBase)
  {
    OpenWaveValid(b, env);
    RollSeatsField(OpenWave(b, env));
    AdvanceStands(b, env);
    NewFieldRostered(b, env);
    hide AdvanceWave, OpenWave, NewField;
    RosteredLasts(NewField(b, env), AdvanceWave(b, env).units, env.stage.enemyBase);
  }

  lemma Enemies(us: seq<UnitState>, i: nat)
    requires DistinctOrders(us) && i < |us| && us[i].team == TEAM_ENEMY
    ensures us[i].order in OrdersOf(us, TEAM_ENEMY) <==> Alive(us[i])
  {
  }

  /** The client still draws a dead member of the party. */
  ghost predicate DrawsFallen(b: BattleState, c: Client) {
    exists u :: u in b.units && u.team == TEAM_PLAYER && !Alive(u) && u.order in c.party
  }

  /** A member of the party after the change stands as it stood, unless the opening killed it. */
  lemma PartyStands(b: BattleState, env: Env, i: nat)
    requires ValidField(b.units) && !OpeningKills(b, env)
    requires i < |AdvanceWave(b, env).units| && AdvanceWave(b, env).units[i].team == TEAM_PLAYER
    ensures i < |NewField(b, env)| && Alive(AdvanceWave(b, env).units[i]) == Alive(NewField(b, env)[i])
  {
    AdvanceStands(b, env);
    OpenWaveKeepsRoster(b, env);
    hide AdvanceWave, OpenWave, NewField;
  }

  lemma AdvanceHeard(b: BattleState, env: Env, c: Client)
    requires ValidField(b.units)
    ensures var b' := AdvanceWave(b, env); var c' := Hear1(c, NextWaveMsg(b'));
            c' == c.(foes := OrdersOf(b'.units, TEAM_ENEMY))
  {
    HearsNextWave(c, AdvanceWave(b, env));
  }

  /** After the change the client draws the new enemies exactly, and the party as before. */
  lemma AdvanceDraws(b: BattleState, env: Env, c: Client, i: nat)
    requires ValidField(b.units) && Rostered(b.units, env.stage.enemyBase) && Informed(b, c)
    requires i < |AdvanceWave(b, env).units| && !DrawsFallen(b, c) && !OpeningKills(b, env)
    ensures var b' := AdvanceWave(b, env);
            Alive(b'.units[i]) == Draws(Hear1(c, NextWaveMsg(b')), b'.units[i])
  {
    var b' := AdvanceWave(b, env);
    AdvanceStands(b, env);
    AdvanceSound(b, env);
    AdvanceHeard(b, env, c);
    if b'.units[i].team == TEAM_PLAYER { PartyStands(b, env, i); }
    hide AdvanceWave, NewField, Seat, OpenWave, OpeningKills, NextWaveMsg, Hear1;
    if b'.units[i].team == TEAM_ENEMY {
      Enemies(b'.units, i);
    } else {
      NewPlayer(b, env, i);
      PlayerDrawn(b, c, NewField(b, env)[i]);
    }
  }

  /** A dead member of the party whom the client draws when nothing is queued stays drawn. */
  lemma Unheard(b': BattleState, c': Client, i: nat)
    requires i < |b'.units| && b'.deaths == [] && b'.units[i].team == TEAM_PLAYER
    requires !Alive(b'.units[i]) && b'.units[i].order in c'.party
    ensures !Informed(b', c')
  {
    assert !Queued(b', b'.units[i]);
  }

  /** A fallen member of the party whom the client still draws stays drawn, with no row left. */
  lemma AdvanceForgets(b: BattleState, env: Env, c: Client)
    requires ValidField(b.units) && DrawsFallen(b, c)
    ensures var b' := AdvanceWave(b, env); !Informed(b', Hear1(c, NextWaveMsg(b')))
  {
    var b' := AdvanceWave(b, env);
    AdvanceStands(b, env);
    AdvanceHeard(b, env, c);
    OfTeamHas(b.units, TEAM_PLAYER);
    var ps := OfTeam(b.units, TEAM_PLAYER);
    var u :| u in b.units && u.team == TEAM_PLAYER && !Alive(u) && u.order in c.party;
    var j :| 0 <= j < |ps| && ps[j] == u;
    assert NewField(b, env)[j] == u;
    hide AdvanceWave, NewField, OpenWave, NextWaveMsg, Hear1, Informed;
    Unheard(b', Hear1(c, NextWaveMsg(b')), j);
  }

  /** A member of the party whom the opening kills stays drawn too. */
  lemma OpeningForgets(b: BattleState, env: Env, c: Client)
    requires ValidField(b.units) && Rostered(b.units, env.stage.enemyBase) && Informed(b, c) && OpeningKills(b, env)
    ensures var b' := AdvanceWave(b, env); !Informed(b', Hear1(c, NextWaveMsg(b')))
  {
    var b' := AdvanceWave(b, env);
    AdvanceStands(b, env);
    AdvanceHeard(b, env, c);
    var i :| 0 <= i < |NewField(b, env)| && i < |OpenWave(b, env).units| && NewField(b, env)[i].team == TEAM_PLAYER
             && Alive(NewField(b, env)[i]) && !Alive(OpenWave(b, env).units[i]);
    NewPlayer(b, env, i);
    var k :| 0 <= k < |b.units| && b.units[k] == NewField(b, env)[i];
    assert Draws(c, b.units[k]);
    hide AdvanceWave, NewField, OpenWave, NextWaveMsg, Hear1, Informed;
    Unheard(b', Hear1(c, NextWaveMsg(b')), i);
  }

  /** CHANGING WAVES, exactly: the queue is thrown away and what battle-start passives do is not
      told, so the client stays informed if and only if no dead member of the party is still
      drawn and the opening kills none who lives. */
  lemma AdvanceInforms(b: BattleState, env: Env, c: Client)
    requires ValidField(b.units) && Rostered(b.units, env.stage.enemyBase) && Informed(b, c)
    ensures var b' := AdvanceWave(b, env);
            Informed(b', Hear1(c, NextWaveMsg(b'))) <==> !DrawsFallen(b, c) && !OpeningKills(b, env)
  {
    var b' := AdvanceWave(b, env);
    AdvanceStands(b, env);
    hide AdvanceWave, OpeningKills, NextWaveMsg, Hear1;
    if DrawsFallen(b, c) {
      AdvanceForgets(b, env, c);
    } else if OpeningKills(b, env) {
      OpeningForgets(b, env, c);
    } else {
      forall i | 0 <= i < |b'.units|
        ensures Alive(b'.units[i]) == Draws(Hear1(c, NextWaveMsg(b')), b'.units[i])
      {
        AdvanceDraws(b, env, c, i);
      }
    }
  }

  lemma NewPlayer(b: BattleState, env: Env, i: nat)
    requires Rostered(b.units, env.stage.enemyBase) && i < |NewField(b, env)| && NewField(b, env)[i].team != TEAM_ENEMY
    ensures NewField(b, env)[i] in b.units && NewField(b, env)[i].team == TEAM_PLAYER
  {
    OfTeamHas(b.units, TEAM_PLAYER);
    if env.stage.groups != [] {
      var g := env.stage.groups[if b.wave + 1 <= |env.stage.groups| then b.wave else |env.stage.groups| - 1];
      MobsRostered(env.stage.enemyBase, g, |g|);
    }
  }

  lemma PlayerDrawn(b: BattleState, c: Client, u: UnitState)
    requires Informed(b, c) && !DrawsFallen(b, c) && u in b.units && u.team == TEAM_PLAYER
    ensures Alive(u) == (u.order in c.party)
  {
    var i :| 0 <= i < |b.units| && b.units[i] == u;
  }

  /** Whoever is still drawn though dead is still queued. */
  lemma FallenAreQueued(b: BattleState, c: Client)
    requires Informed(b, c) && DrawsFallen(b, c)
    ensures b.deaths != []
  {
    var u :| u in b.units && u.team == TEAM_PLAYER && !Alive(u) && u.order in c.party;
    var i :| 0 <= i < |b.units| && b.units[i] == u;
    assert Queued(b, b.units[i]);
  }

  // -- any request ------------------------------------------------------------------

  /** Changes that touch neither life nor queue nor news. */
  lemma IdleFine(b: BattleState, b': BattleState, c: Client, base: nat)
    requires Fine(b, c, base) && ValidField(b'.units) && SameStands(b.units, b'.units) && Seat(b')
    requires b'.deaths == b.deaths && b'.wave == b.wave
    ensures Fine(b', c, base)
  {
    RosteredLasts(b.units, b'.units, base);
    forall i | 0 <= i < |b'.units| && !Alive(b'.units[i]) && Draws(c, b'.units[i]) ensures Queued(b', b'.units[i]) {
      var k :| 0 <= k < |b.deaths| && Names(b.deaths[k], b.units[i], b.wave);
      assert Names(b'.deaths[k], b'.units[i], b'.wave);
    }
    forall k | 0 <= k < |b'.deaths| && b'.deaths[k].die && b'.deaths[k].wave == b'.wave ensures Dead(b'.units, b'.deaths[k].order) {
      SameRosterFinds(b.units, b'.units, b'.deaths[k].order);
    }
  }

  lemma FlagsFine(b: BattleState, c: Client, base: nat, open: bool, begun: bool, auto: bool)
    requires Fine(b, c, base)
    ensures Fine(b.(turnOpen := open, waveBegun := begun, auto := auto), c, base)
  {
    IdleFine(b, b.(turnOpen := open, waveBegun := begun, auto := auto), c, base);
  }

  /** A reply that tells the client of no unit leaves its picture alone. */
  predicate Neutral(m: Message) {
    !m.Attack? && !m.NextWave? && !m.ServerStart?
  }

  predicate AllNeutral(ms: seq<Message>) {
    forall k :: 0 <= k < |ms| ==> Neutral(ms[k])
  }

  lemma {:induction false} NeutralHeard(c: Client, ms: seq<Message>)
    requires AllNeutral(ms)
    ensures Hear(c, ms) == c
    decreases |ms|
  {
    if ms != [] {
      NeutralHeard(c, ms[..|ms| - 1]);
    }
  }

  lemma OpenTurnFine(b: BattleState, c: Client, base: nat)
    requires Fine(b, c, base)
    ensures Fine(OpenTurn(b).b, c, base) && AllNeutral(OpenTurn(b).msgs)
  {
    if !b.turnOpen { FlagsFine(b, c, base, true, true, b.auto); }
  }

  lemma DrainFine(b: BattleState, c: Client, base: nat)
    requires Fine(b, c, base)
    ensures Fine(b.(deaths := Drain1(b).kept), Hear(c, SentMessages(Drain1(b))), base)
  {
    DrainInforms(b, c);
  }

  lemma EndWaveFine(b: BattleState, stage: Stage, c: Client, base: nat)
    requires Fine(b, c, base)
    ensures Fine(EndWave(b, stage).b, Hear(c, EndWave(b, stage).msgs), base)
  {
    DrainFine(b, c, base);
    hide Fine, Drain;
    if Drain1(b).sent == [] {
      assert SentMessages(Drain1(b)) == [];
      NeutralHeard(c, EndWave(b, stage).msgs);
    }
  }

  lemma JudgeFine(b: BattleState, env: Env, c: Client, base: nat)
    requires Fine(b, c, base)
    ensures var a := AnswerJudge(b, env); Fine(a.b, Hear(c, a.msgs), base)
  {
    hide PlayTurn, EndWave, Informed, Rostered, Seat, Decided, PlayerTurn, Hear;
    EndWaveFine(b, env.stage, c, base);
    PlayTurnFine(b, TEAM_ENEMY, env, c, base);
    PlayTurnFine(b, TEAM_PLAYER, env, c, base);
    Aside(c, Judge, PlayTurn(b, TEAM_ENEMY, env).msgs);
    HearOne(c, Judge);
  }

  lemma SetAutoFine(b: BattleState, env: Env, c: Client, base: nat)
    requires Fine(b, c, base)
    ensures var a := SetAuto(b, env); Fine(a.b, Hear(c, a.msgs), base)
  {
    hide PlayTurn, Informed, Rostered, Seat, PlayerTurn, Hear;
    PlayTurnFine(b, TEAM_ENEMY, env, c, base);
    Aside(c, AutoSet(b.auto), PlayTurn(b, TEAM_ENEMY, env).msgs);
    HearOne(c, AutoSet(b.auto));
  }

  lemma SwapFine(b: BattleState, incoming: nat, outgoing: nat, c: Client, base: nat)
    requires Fine(b, c, base) && SwapUnits(b, incoming, outgoing).Some?
    ensures Fine(SwapUnits(b, incoming, outgoing).value, c, base)
  {
    var b' := SwapUnits(b, incoming, outgoing).value;
    forall k | 0 <= k < |b'.turnOrder| ensures Find(b'.units, b'.turnOrder[k]).Some? {
      SameRosterFinds(b.units, b'.units, b'.turnOrder[k]);
      assert Find(b.units, b.turnOrder[k]).Some?;
    }
    SwapSeat(b, b');
    IdleFine(b, b', c, base);
  }

  lemma SwapSeat(b: BattleState, b': BattleState)
    requires Seat(b) && SameStands(b.units, b'.units) && |b'.turnOrder| == |b.turnOrder|
    requires forall k :: 0 <= k < |b'.turnOrder| ==> Find(b'.units, b'.turnOrder[k]).Some?
    ensures Seat(b')
  {
    if AnyAlive(b'.units) {
      var i :| 0 <= i < |b'.units| && Alive(b'.units[i]);
      assert Alive(b.units[i]);
    }
  }

  /** A fresh copy of the field says exactly who lives. */
  lemma RestartFine(b: BattleState, c: Client, base: nat)
    requires Fine(b, c, base)
    ensures Fine(b.(turnOpen := false), Present(b.units), base)
  {
    var c' := Present(b.units);
    forall i | 0 <= i < |b.units| ensures Draws(c', b.units[i]) == Alive(b.units[i]) {
      OnTeam(b.units, i, b.units[i].team);
    }
  }

  lemma OnTeam(us: seq<UnitState>, i: nat, team: int)
    requires DistinctOrders(us) && i < |us| && us[i].team == team
    ensures us[i].order in OrdersOf(us, team) <==> Alive(us[i])
  {
  }

  lemma NextWaveFine(b: BattleState, env: Env, c: Client)
    requires Fine(b, c, env.stage.enemyBase) && b.deaths == [] && !OpeningKills(b, env)
    ensures var a := Inner(b, ReqNextWave, env);
            Fine(a.b, Hear(c, a.msgs), env.stage.enemyBase) && a.b.deaths == []
  {
    AdvanceSound(b, env);
    AdvanceInforms(b, env, c);
    AdvanceStands(b, env);
    assert !DrawsFallen(b, c) by { if DrawsFallen(b, c) { FallenAreQueued(b, c); } }
    hide AdvanceWave, Informed, OpeningKills, NextWaveMsg;
    HearOne(c, NextWaveMsg(AdvanceWave(b, env)));
  }
}
