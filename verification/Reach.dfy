/** The battles that can be reached: how one starts, and what every request keeps from then on,
    whatever the client asks and whatever the engine does. */
module Reach {
  import opened Wrappers
  import opened Units
  import opened TurnQueue
  import opened Turns
  import opened News
  import opened Outbound
  import opened Replies
  import opened ClientPicture
  import opened Sessions
  import opened Lineage
  import opened NoDeathUntold

  const MAX_SLOTS: nat := 5

  /** What a battle is built from: the party, the stage's waves, and two settings. */
  datatype Setup = Setup(cast: seq<Mob>, groups: seq<seq<Option<Mob>>>, bossBook: bool, tell: bool)

  function Places(s: Setup): (n: nat)
    ensures n <= |s.cast|
  {
    if |s.cast| <= MAX_SLOTS then |s.cast| else MAX_SLOTS
  }

  /** Enemies are numbered on from the party. */
  function StageOf(s: Setup): Stage {
    Stage(ORDER_BASE + Places(s), s.groups, s.bossBook)
  }

  function Party(s: Setup): (us: seq<UnitState>)
    ensures |us| == Places(s)
    ensures forall i :: 0 <= i < |us| ==> us[i] == NewMob(ORDER_BASE + i, i, s.cast[i]).(team := TEAM_PLAYER)
  {
    seq(Places(s), i requires 0 <= i < Places(s) => NewMob(ORDER_BASE + i, i, s.cast[i]).(team := TEAM_PLAYER))
  }

  /** The field as built for a wave, before anything happens on it. */
  function Line(s: Setup, wave: nat): seq<UnitState> {
    Party(s) + WaveMobs(StageOf(s), wave)
  }

  function Waves(s: Setup): nat { if s.groups == [] then 1 else |s.groups| }

  function Field0(s: Setup): BattleState {
    BattleState(Line(s, 1), [], 1, Waves(s), 1, 0, [], [], {}, map[], false, false, false, s.tell)
  }

  lemma {:induction false} MobsPlain(base: nat, slots: seq<Option<Mob>>, n: nat)
    requires n <= |slots|
    ensures forall i :: 0 <= i < |MobsOf(base, slots, n)| ==> MobsOf(base, slots, n)[i].statuses == []
  {
    if n > 0 { MobsPlain(base, slots, n - 1); }
  }

  lemma WavePlain(stage: Stage, wave: nat)
    ensures forall i :: 0 <= i < |WaveMobs(stage, wave)| ==> WaveMobs(stage, wave)[i].statuses == []
  {
    if stage.groups != [] && wave != 0 {
      var g := stage.groups[if wave <= |stage.groups| then wave - 1 else |stage.groups| - 1];
      MobsPlain(stage.enemyBase, g, |g|);
    }
  }

  /** Nobody holds any status. */
  predicate Plain(us: seq<UnitState>) {
    forall i :: 0 <= i < |us| ==> us[i].statuses == []
  }

  lemma LinePlain(s: Setup, wave: nat)
    ensures Plain(Line(s, wave))
  {
    WavePlain(StageOf(s), wave);
  }

  lemma PartyValid(s: Setup, wave: nat)
    ensures ValidField(Line(s, wave))
  {
    WaveMobsValid(StageOf(s), wave);
  }

  lemma OpeningValid(s: Setup, fx: Passives)
    ensures ValidField(LandAll(Line(s, 1), fx(BattleStart, Field0(s))))
  {
    PartyValid(s, 1);
    LandAllValid(Line(s, 1), fx(BattleStart, Field0(s)));
  }

  /** A battle is built, its battle-start passives take hold, and the queue is rolled. */
  ghost function NewBattle(s: Setup, fx: Passives): (b: BattleState)
    ensures ValidField(b.units)
  {
    OpeningValid(s, fx);
    Roll(Field0(s).(units := LandAll(Line(s, 1), fx(BattleStart, Field0(s)))))
  }

  /** What holds in every reachable battle. */
  ghost predicate Reached(b: BattleState, s: Setup) {
    && ValidField(b.units) && SameBuilds(Line(s, b.wave), b.units) && Seat(b)
    && b.wave >= 1 && b.waveMax == Waves(s) && b.tellNonFatal == s.tell
  }

  // -- the line of a wave -----------------------------------------------------------

  lemma LineRostered(s: Setup, wave: nat)
    ensures Rostered(Line(s, wave), StageOf(s).enemyBase)
  {
    var base := StageOf(s).enemyBase;
    if s.groups != [] && wave != 0 {
      var g := s.groups[if wave <= |s.groups| then wave - 1 else |s.groups| - 1];
      MobsRostered(base, g, |g|);
    }
  }

  lemma BuildsRostered(us: seq<UnitState>, us': seq<UnitState>, base: nat)
    requires SameBuilds(us, us') && Rostered(us, base)
    ensures Rostered(us', base)
  {
  }

  lemma ReachedSound(b: BattleState, s: Setup)
    requires Reached(b, s)
    ensures Sound(b, StageOf(s).enemyBase)
  {
    LineRostered(s, b.wave);
    BuildsRostered(Line(s, b.wave), b.units, StageOf(s).enemyBase);
  }

  lemma {:induction false} OfTeamAdds(a: seq<UnitState>, b: seq<UnitState>, team: int)
    ensures OfTeam(a + b, team) == OfTeam(a, team) + OfTeam(b, team)
    decreases |b|
  {
    if b == [] {
      assert a + b == a;
    } else {
      var n := |b| - 1;
      OfTeamAdds(a, b[..n], team);
      assert (a + b)[..|a + b| - 1] == a + b[..n];
    }
  }

  lemma {:induction false} OfOneTeam(us: seq<UnitState>, mine: int, team: int)
    requires forall i :: 0 <= i < |us| ==> us[i].team == mine
    ensures OfTeam(us, team) == if team == mine then us else []
  {
    if us != [] {
      OfOneTeam(us[..|us| - 1], mine, team);
    }
  }

  lemma {:induction false} OfTeamBuilds(us: seq<UnitState>, us': seq<UnitState>, team: int)
    requires SameBuilds(us, us')
    ensures SameBuilds(OfTeam(us, team), OfTeam(us', team))
  {
    if us != [] {
      hide SameBuild;
      var n := |us| - 1;
      OfTeamBuilds(us[..n], us'[..n], team);
      SameTeam(us[n], us'[n]);
    }
  }

  lemma SameTeam(u: UnitState, v: UnitState)
    requires SameBuild(u, v)
    ensures v.team == u.team
  {
  }

  lemma MobsAreEnemies(stage: Stage, wave: nat)
    ensures forall i :: 0 <= i < |WaveMobs(stage, wave)| ==> WaveMobs(stage, wave)[i].team == TEAM_ENEMY
  {
    if stage.groups != [] && wave != 0 {
      var g := stage.groups[if wave <= |stage.groups| then wave - 1 else |stage.groups| - 1];
      MobsRostered(stage.enemyBase, g, |g|);
    }
  }

  lemma SidesOfLine(s: Setup, wave: nat)
    ensures OfTeam(Line(s, wave), TEAM_PLAYER) == Party(s)
    ensures OfTeam(Line(s, wave), TEAM_ENEMY) == WaveMobs(StageOf(s), wave)
  {
    var p, m := Party(s), WaveMobs(StageOf(s), wave);
    MobsAreEnemies(StageOf(s), wave);
    OfTeamAdds(p, m, TEAM_PLAYER);
    OfTeamAdds(p, m, TEAM_ENEMY);
    hide WaveMobs, Party;
    OfOneTeam(p, TEAM_PLAYER, TEAM_PLAYER);
    OfOneTeam(p, TEAM_PLAYER, TEAM_ENEMY);
    OfOneTeam(m, TEAM_ENEMY, TEAM_PLAYER);
    OfOneTeam(m, TEAM_ENEMY, TEAM_ENEMY);
  }

  /** The next wave's field has the builds of the next wave's line. */
  lemma NextLine(b: BattleState, s: Setup, env: Env)
    requires SameBuilds(Line(s, b.wave), b.units) && env.stage == StageOf(s)
    ensures SameBuilds(Line(s, b.wave + 1), NewField(b, env))
  {
    SidesOfLine(s, b.wave);
    OfTeamBuilds(Line(s, b.wave), b.units, TEAM_PLAYER);
    var mobs := WaveMobs(StageOf(s), b.wave + 1);
    hide OfTeam, WaveMobs, SameBuild;
    BuildsAppend(Party(s), OfTeam(b.units, TEAM_PLAYER), mobs);
  }

  lemma BuildsAppend(us: seq<UnitState>, us': seq<UnitState>, more: seq<UnitState>)
    requires SameBuilds(us, us')
    ensures SameBuilds(us + more, us' + more)
  {
  }

  lemma BuildsOn(us: seq<UnitState>, us1: seq<UnitState>, us2: seq<UnitState>)
    requires SameBuilds(us, us1) && SameBuilds(us1, us2)
    ensures SameBuilds(us, us2)
  {
  }

  // -- the seat ---------------------------------------------------------------------

  lemma EndTurnSeats(b: BattleState, fx: Passives)
    requires ValidField(b.units) && DistinctOrders(b.units)
    ensures Seat(EndTurn(b, fx))
  {
    hide Rotate, Seat, Follows;
    RotateSeats(b, fx);
    RotateFollows(b, fx);
    StartKeepsSeat(Rotate(b, fx), 0, fx);
  }

  lemma PlayTurnSeats(b: BattleState, team: int, env: Env)
    requires ValidField(b.units) && DistinctOrders(b.units) && Seat(b)
    ensures Seat(PlayTurn(b, team, env).b)
  {
    var m := AutoMove(b, team, env);
    if m.Some? {
      var at, de, slot := m.value.attacker, m.value.defender, m.value.slot;
      var b1 := ResolveSkill(b, at, de, slot, env).0;
      ResolveKin(b, at, de, slot, env);
      ResolveValid(b, at, de, slot, env);
      SpendKin(b1, at, slot);
      SpendSkillValid(b1, at, slot);
      hide ResolveSkill, SpendSkill, EndTurn, Kin, Seat;
      KinDistinct(b, b1);
      KinDistinct(b1, SpendSkill(b1, at, slot));
      EndTurnSeats(SpendSkill(b1, at, slot), env.fx);
    }
  }

  lemma PlayerAttackSeats(b: BattleState, at: nat, de: nat, key: int, env: Env)
    requires ValidField(b.units) && DistinctOrders(b.units)
    ensures Seat(PlayerAttack(b, at, de, key, env).b)
  {
    var slot := SlotFor(b, at, key);
    var b1 := SpendSkill(b, at, slot);
    SpendKin(b, at, slot);
    SpendSkillValid(b, at, slot);
    ResolveKin(b1, at, de, slot, env);
    ResolveValid(b1, at, de, slot, env);
    var b2 := ResolveSkill(b1, at, de, slot, env).0;
    hide ResolveSkill, SpendSkill, EndTurn, Kin, SlotFor, Seat;
    KinDistinct(b, b1);
    KinDistinct(b1, b2);
    EndTurnSeats(b2, env.fx);
  }

  lemma SwapSeats(b: BattleState, incoming: nat, outgoing: nat)
    requires Seat(b)
    ensures SwapUnits(b, incoming, outgoing).Some? ==> Seat(SwapUnits(b, incoming, outgoing).value)
  {
    if SwapUnits(b, incoming, outgoing).Some? {
      var b' := SwapUnits(b, incoming, outgoing).value;
      forall k | 0 <= k < |b'.turnOrder| ensures Find(b'.units, b'.turnOrder[k]).Some? {
        SameRosterFinds(b.units, b'.units, b'.turnOrder[k]);
        assert Find(b.units, b.turnOrder[k]).Some?;
      }
      SwapSeat(b, b');
    }
  }

  lemma FlagsSeat(b: BattleState, open: bool, begun: bool, auto: bool, ds: seq<DeathRow>)
    requires Seat(b)
    ensures Seat(b.(turnOpen := open, waveBegun := begun, auto := auto, deaths := ds))
  {
  }

  lemma OpenTurnSeats(b: BattleState)
    requires Seat(b)
    ensures Seat(OpenTurn(b).b)
  {
    FlagsSeat(b, true, true, b.auto, b.deaths);
  }

  lemma JudgeSeats(b: BattleState, env: Env)
    requires ValidField(b.units) && DistinctOrders(b.units) && Seat(b)
    ensures Seat(AnswerJudge(b, env).b)
  {
    PlayTurnSeats(b, TEAM_ENEMY, env);
    PlayTurnSeats(b, TEAM_PLAYER, env);
    FlagsSeat(b, b.turnOpen, b.waveBegun, b.auto, Drain1(b).kept);
    hide PlayTurn, Drain, Seat, TeamAlive, SentMessages;
    assert EndWave(b, env.stage).b == b.(deaths := Drain1(b).kept);
    hide EndWave;
  }

  lemma InnerSeats(b: BattleState, req: Request, env: Env)
    requires ValidField(b.units) && DistinctOrders(b.units) && Seat(b)
    ensures Seat(Inner(b, req, env).b)
  {
    hide PlayTurn, SwapUnits, PlayerAttack, AnswerJudge, OpenTurn, Seat, OpenWave, Roll;
    match req
    case ReqReady(auto) =>
      var b1 := if auto.Some? then b.(auto := auto.value != 0) else b;
      FlagsSeat(b, b.turnOpen, b.waveBegun, b1.auto, b.deaths);
      OpenTurnSeats(b1);
    case ReqStartTurn => OpenTurnSeats(b);
    case ReqJudge => JudgeSeats(b, env);
    case ReqAttack(at, de, key) => PlayerAttackSeats(b, at, de, key, env);
    case ReqNextWave =>
      OpenWaveValid(b, env);
      RollSeatsField(OpenWave(b, env));
    case ReqAuto(want) =>
      FlagsSeat(b, b.turnOpen, b.waveBegun, want != 0, b.deaths);
      PlayTurnSeats(b.(auto := want != 0), TEAM_ENEMY, env);
    case ReqChangeChar(o) =>
      if Acting(b).Some? { SwapSeats(b, o, b.units[Acting(b).value].order); }
    case ReqReconnect(_) => FlagsSeat(b, false, b.waveBegun, b.auto, b.deaths);
    case _ =>
  }

  lemma ReplySeats(b: BattleState, req: Request, env: Env)
    requires ValidField(b.units) && DistinctOrders(b.units) && Seat(b)
    ensures Seat(Reply(b, req, env).b)
  {
    var w := Drain1(b);
    var b1 := if req.ReqJudge? && DeathQueued(b) then b.(deaths := w.kept) else b;
    hide Inner, Drain, Seat;
    FlagsSeat(b, b.turnOpen, b.waveBegun, b.auto, w.kept);
    InnerSeats(b1, req, env);
    var b2 := Inner(b1, req, env).b;
    FlagsSeat(b2, b2.turnOpen, b2.waveBegun, b2.auto, Drain1(b2).kept);
  }

  // -- reachability -----------------------------------------------------------------

  lemma StayReached(b: BattleState, b': BattleState, s: Setup)
    requires Reached(b, s) && Kin(b, b') && Seat(b') && ValidField(b'.units)
    ensures Reached(b', s)
  {
    hide Seat, SameBuilds, Line;
    BuildsOn(Line(s, b.wave), b.units, b'.units);
  }

  lemma MoveReached(b: BattleState, b': BattleState, s: Setup, env: Env)
    requires Reached(b, s) && env.stage == StageOf(s) && Seat(b') && ValidField(b'.units)
    requires SameBuilds(NewField(b, env), b'.units)
    requires b'.wave == b.wave + 1 && b'.waveMax == b.waveMax && b'.tellNonFatal == b.tellNonFatal
    ensures Reached(b', s)
  {
    NextLine(b, s, env);
    hide Seat, SameBuilds, Line, NewField;
    BuildsOn(Line(s, b'.wave), NewField(b, env), b'.units);
  }

  lemma ReplyReached(b: BattleState, req: Request, env: Env, s: Setup)
    requires Reached(b, s) && env.stage == StageOf(s)
    ensures Reached(Reply(b, req, env).b, s)
  {
    ReachedSound(b, s);
    ReplySeats(b, req, env);
    hide Reply, AdvanceWave, Seat, Reached, SameBuilds, NewField;
    if req.ReqNextWave? {
      NextWaveServed(b, env);
      AdvanceKeeps(b, env);
      MoveReached(b, Reply(b, req, env).b, s, env);
    } else {
      ReplyKin(b, req, env);
      StayReached(b, Reply(b, req, env).b, s);
    }
  }

  lemma NewBattleReached(s: Setup, fx: Passives)
    ensures Reached(NewBattle(s, fx), s) && NewBattle(s, fx).deaths == []
  {
    OpeningValid(s, fx);
    var b0 := Field0(s).(units := LandAll(Line(s, 1), fx(BattleStart, Field0(s))));
    LandAllKeeps(Line(s, 1), fx(BattleStart, Field0(s)));
    RollKin(b0);
    RollSeatsField(b0);
    hide Roll, Seat, Line, LandAll;
    BuildsOn(Line(s, 1), b0.units, Roll(b0).units);
  }

  ghost predicate OfSetup(steps: seq<Step>, s: Setup) {
    forall k :: 0 <= k < |steps| ==> steps[k].env.stage == StageOf(s)
  }

  /** EVERY REACHABLE BATTLE, with no discipline asked of the client and nothing of the engine:
      the party and the mobs of the present wave stand in their places with the builds they
      were given, and the queue is empty only if nobody lives. */
  lemma {:induction false} AllReached(ss: Session, steps: seq<Step>, s: Setup)
    requires Reached(ss.b, s) && OfSetup(steps, s)
    ensures Reached(Run(ss, steps).b, s)
    decreases |steps|
  {
    hide Reached, Reply;
    ReachedValid(ss.b, s);
    if steps != [] {
      var n := |steps| - 1;
      AllReached(ss, steps[..n], s);
      ReplyReached(Run(ss, steps[..n]).b, steps[n].req, steps[n].env, s);
    }
  }

  lemma ReachedValid(b: BattleState, s: Setup)
    requires Reached(b, s)
    ensures ValidField(b.units)
  {
  }

  /** The session a battle opens with: the client is sent the whole field. */
  ghost function Opening(s: Setup, fx: Passives): (ss: Session)
    ensures ValidField(ss.b.units)
  {
    var b := NewBattle(s, fx);
    Session(b, Present(b.units), false)
  }

  /** Every battle opens in a good session, so what holds of good sessions holds from the
      start of every battle. */
  lemma OpeningGood(s: Setup, fx: Passives)
    ensures Good(Opening(s, fx), StageOf(s).enemyBase)
  {
    NewBattleReached(s, fx);
    var b := NewBattle(s, fx);
    ReachedSound(b, s);
    var c := Opening(s, fx).c;
    hide NewBattle;
    forall i | 0 <= i < |b.units| ensures Draws(c, b.units[i]) == Alive(b.units[i]) {
      OnTeam(b.units, i, b.units[i].team);
    }
  }
}
