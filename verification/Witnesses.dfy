/** Inputs at which the promises are not kept: where a client loses a death for good, and where
    a battle that is picked up again is not the battle that was saved. */
module Witnesses {
  import opened Wrappers
  import opened Units
  import opened StatusRows
  import opened TurnQueue
  import opened Turns
  import opened News
  import opened Outbound
  import opened Replies
  import opened Delivery
  import opened ClientPicture
  import opened Sessions
  import opened Lineage
  import opened NoDeathUntold
  import opened Reach
  import opened Resume
  import opened Calm
  import Stalls
  import TurnTheorems

  /** Passives that at one moment strike one unit, and are silent otherwise. */
  function StrikeAt(when: Moment, order: nat, amount: nat): Passives {
    (m: Moment, b: BattleState) => if m == when then [Strike(order, amount)] else []
  }

  function Quiet(): Passives { (m: Moment, b: BattleState) => [] }

  /** A stage on which skills do nothing and the chooser has no opinion. */
  function World0(s: Setup, fx: Passives): Env {
    Env(StageOf(s), fx, (b: BattleState, at: nat, de: nat, slot: int) => [], (b: BattleState, team: int) => None,
        (c: int, slot: nat) => 0.0, (id: int) => true)
  }

  // -- a death queued, and thrown away ------------------------------------------------

  lemma StruckDown(us: seq<UnitState>, i: nat, amount: nat)
    requires DistinctOrders(us) && i < |us| && amount >= us[i].hp
    ensures !Alive(LandAll(us, [Strike(us[i].order, amount)])[i])
  {
    var es := [Strike(us[i].order, amount)];
    FindsPosition(us, i);
    assert LandAll(us, es[..0]) == us;
  }

  lemma FinishKills(b: BattleState, a: nat, i: nat, fx: Passives)
    requires DistinctOrders(b.units) && a < |b.units| && i < |b.units|
    requires fx == StrikeAt(AfterAction, b.units[i].order, b.units[i].hp)
    ensures !Alive(FinishAction(b, a, fx).units[i])
  {
    var b1 := b.(units := b.units[a := SpendGauge(TickCooldowns(b.units[a]))]);
    assert DistinctOrders(b1.units);
    StruckDown(b1.units, i, b.units[i].hp);
    hide LandAll;
  }

  /** Whoever a passive kills as the action ends is dead when the turn has ended. */
  lemma TurnKills(b: BattleState, i: nat, fx: Passives)
    requires ValidField(b.units) && DistinctOrders(b.units) && Acting(b).Some? && i < |b.units|
    requires fx == StrikeAt(AfterAction, b.units[i].order, b.units[i].hp)
    ensures !Alive(EndTurn(b, fx).units[i])
  {
    var a := Acting(b).value;
    FinishKills(b, a, i, fx);
    FinishFollows(b, a, fx);
    RotateFollows(b, fx);
    var b1 := FinishAction(b, a, fx);
    hide FinishAction, Roll, AgeBlocks, StartOfTurn, Acting;
    AgeFollows(b1);
    AgedValid(b1);
    RollFollows(AgeBlocks(b1));
    StartFollows(Rotate(b, fx), 0, fx);
  }

  /** An attack that does nothing by itself. */
  lemma IdleAttack(b: BattleState, env: Env, at: nat, de: nat, slot: int)
    requires forall x, y, z, n :: env.resolve(x, y, z, n) == []
    ensures var r := ResolveSkill(b, at, de, slot, env);
            r.0.units == b.units && r.0.turnOrder == b.turnOrder && Fallen(r.1.hits) == {}
  {
    var r := ResolveSkill(b, at, de, slot, env);
    assert LandAll(b.units, []) == b.units;
    assert |r.1.hits| == 1 && !r.1.hits[0].die;
  }

  lemma SpentStands(b: BattleState, at: nat, slot: int)
    ensures var b' := SpendSkill(b, at, slot);
            && |b'.units| == |b.units| && Acting(b') == Acting(b)
            && forall k :: 0 <= k < |b.units| ==> b'.units[k].order == b.units[k].order && b'.units[k].hp == b.units[k].hp
  {
    var b' := SpendSkill(b, at, slot);
    assert forall k :: 0 <= k < |b.units| ==> b'.units[k].order == b.units[k].order;
    if b.turnOrder != [] { SameOrdersFind(b.units, b'.units, b.turnOrder[0]); }
  }

  lemma SameOrdersDistinct(us: seq<UnitState>, us': seq<UnitState>)
    requires DistinctOrders(us) && |us'| == |us| && forall k :: 0 <= k < |us| ==> us'[k].order == us[k].order
    ensures DistinctOrders(us')
  {
  }

  /** The attack is answered, and unit `i` falls to a passive as it ends: the client is not told. */
  lemma FallsUnseen(b: BattleState, env: Env, i: nat, at: nat, de: nat, key: int)
    requires ValidField(b.units) && DistinctOrders(b.units) && Acting(b).Some? && i < |b.units|
    requires env.fx == StrikeAt(AfterAction, b.units[i].order, b.units[i].hp)
    requires forall x, y, z, n :: env.resolve(x, y, z, n) == []
    ensures var a := PlayerAttack(b, at, de, key, env);
            && |a.b.units| == |b.units| && !Alive(a.b.units[i]) && SameBuild(b.units[i], a.b.units[i])
            && |a.msgs| == 1 && a.msgs[0].Attack? && Fallen(a.msgs[0].hits) == {}
  {
    var slot := SlotFor(b, at, key);
    var b1 := SpendSkill(b, at, slot);
    SpentStands(b, at, slot);
    SpendSkillValid(b, at, slot);
    SpendKin(b, at, slot);
    IdleAttack(b1, env, at, de, slot);
    ResolveValid(b1, at, de, slot, env);
    var b2 := ResolveSkill(b1, at, de, slot, env).0;
    SameOrdersDistinct(b.units, b1.units);
    hide SpendSkill, ResolveSkill, EndTurn, SlotFor;
    TurnKills(b2, i, env.fx);
    EndTurnFollows(b2, env.fx);
  }

  /** A DEATH QUEUED AND LOST: from any state with somebody seated and a member of the party
      alive, an attack whose end kills that member, and then the next wave asked for at once,
      leave the client drawing it for good. */
  lemma QueuedDeathLost(b: BattleState, c: Client, i: nat, at: nat, de: nat, env: Env, env': Env)
    requires Fine(b, c, env.stage.enemyBase) && env'.stage == env.stage && Acting(b).Some?
    requires i < |b.units| && b.units[i].team == TEAM_PLAYER && Alive(b.units[i])
    requires env.fx == StrikeAt(AfterAction, b.units[i].order, b.units[i].hp)
    requires forall x, y, z, n :: env.resolve(x, y, z, n) == []
    ensures var ss := Serve(Session(b, c, false), Step(ReqAttack(at, de, 1), env));
            && DrawsFallen(ss.b, ss.c) && ss.b.deaths != []
            && !Informed(Serve(ss, Step(ReqNextWave, env')).b, Serve(ss, Step(ReqNextWave, env')).c)
  {
    var ss := Serve(Session(b, c, false), Step(ReqAttack(at, de, 1), env));
    AttackServed(b, c, i, at, de, env);
    ReplyFine(b, ReqAttack(at, de, 1), env, c);
    FineInforms(ss.b, ss.c, env.stage.enemyBase);
    hide Fine, Informed, Reply, DrawsFallen, PlayerAttack;
    FallenAreQueued(ss.b, ss.c);
    UndisciplinedLosesDeath(ss.b, env', ss.c);
  }

  lemma FineInforms(b: BattleState, c: Client, base: nat)
    requires Fine(b, c, base)
    ensures ValidField(b.units) && DistinctOrders(b.units) && Informed(b, c)
  {
  }

  lemma AttackAlone(b: BattleState, env: Env, at: nat, de: nat, key: int)
    requires ValidField(b.units)
    ensures Reply(b, ReqAttack(at, de, key), env) == PlayerAttack(b, at, de, key, env)
  {
    hide EndTurn, ResolveSkill, SpendSkill, SlotFor, Drain;
    assert Populates(PlayerAttack(b, at, de, key, env).msgs[0]);
  }

  lemma AttackServed(b: BattleState, c: Client, i: nat, at: nat, de: nat, env: Env)
    requires Fine(b, c, env.stage.enemyBase) && Acting(b).Some?
    requires i < |b.units| && b.units[i].team == TEAM_PLAYER && Alive(b.units[i])
    requires env.fx == StrikeAt(AfterAction, b.units[i].order, b.units[i].hp)
    requires forall x, y, z, n :: env.resolve(x, y, z, n) == []
    ensures var ss := Serve(Session(b, c, false), Step(ReqAttack(at, de, 1), env));
            DrawsFallen(ss.b, ss.c)
  {
    FineInforms(b, c, env.stage.enemyBase);
    assert Draws(c, b.units[i]);
    hide Fine, Informed, PlayerAttack, Reply;
    FallsUnseen(b, env, i, at, de, 1);
    var a := PlayerAttack(b, at, de, 1, env);
    AttackAlone(b, env, at, de, 1);
    assert a.msgs == [a.msgs[0]];
    HearOne(c, a.msgs[0]);
    assert a.b.units[i] in a.b.units;
  }

  lemma OpensAlive(s: Setup)
    requires s.cast != [] && s.cast[0].hp > 0
    ensures var b := Opening(s, Quiet()).b;
            && |b.units| > 0 && b.units[0].team == TEAM_PLAYER && Alive(b.units[0]) && Acting(b).Some?
  {
    var b0 := Field0(s);
    assert Quiet()(BattleStart, b0) == [];
    assert LandAll(Line(s, 1), []) == Line(s, 1);
    OpeningValid(s, Quiet());
    assert b0.(units := Line(s, 1)) == b0;
    RollStands(b0);
    assert Line(s, 1)[0] == Party(s)[0];
    NewBattleReached(s, Quiet());
    hide Roll, Line, Party;
    var b := NewBattle(s, Quiet());
    assert AnyAlive(b.units);
    assert Find(b.units, b.turnOrder[0]).Some?;
  }

  /** So in every battle with a living first member, two requests are enough. */
  lemma OutOfOrderLoses(s: Setup, env: Env)
    requires s.cast != [] && s.cast[0].hp > 0 && env.stage == StageOf(s)
    ensures var ss := Opening(s, Quiet());
            && |ss.b.units| > 0
            && (var kill := World0(s, StrikeAt(AfterAction, ss.b.units[0].order, ss.b.units[0].hp));
                var ss' := Run(ss, [Step(ReqAttack(101, 101, 1), kill), Step(ReqNextWave, env)]);
                !Informed(ss'.b, ss'.c))
  {
    var ss := Opening(s, Quiet());
    OpensAlive(s);
    OpeningGood(s, Quiet());
    hide Opening, Fine, Serve, Acting, Informed;
    var kill := World0(s, StrikeAt(AfterAction, ss.b.units[0].order, ss.b.units[0].hp));
    QueuedDeathLost(ss.b, ss.c, 0, 101, 101, kill, env);
    TwoSteps(ss, Step(ReqAttack(101, 101, 1), kill), Step(ReqNextWave, env));
  }

  lemma TwoSteps(ss: Session, one: Step, two: Step)
    requires ValidField(ss.b.units)
    ensures Run(ss, [one, two]) == Serve(Serve(ss, one), two)
  {
    assert [one, two][..1] == [one] && [one][..0] == [];
    hide Serve;
    assert Run(ss, []) == ss;
    assert Run(ss, [one]) == Serve(ss, one);
  }

  // -- a death in the opening of a wave -----------------------------------------------

  /** The party in the new field, in its old order. */
  lemma PartyCarriedOver(b: BattleState, env: Env, u: UnitState) returns (j: nat)
    requires u in b.units && u.team == TEAM_PLAYER
    ensures j < |NewField(b, env)| && NewField(b, env)[j] == u
  {
    OfTeamHas(b.units, TEAM_PLAYER);
    var ps := OfTeam(b.units, TEAM_PLAYER);
    var k: nat :| k < |ps| && ps[k] == u;
    j := k;
  }

  lemma SpawnIs(b: BattleState, env: Env)
    ensures SpawnWave(b.(wave := b.wave + 1, rows := [], deaths := [], told := {}), env.stage).units == NewField(b, env)
  {
    hide BankAll, OfTeam, WaveMobs;
  }

  lemma OpeningStrikes(b: BattleState, env: Env, j: nat)
    requires DistinctOrders(NewField(b, env)) && j < |NewField(b, env)|
    requires NewField(b, env)[j].team == TEAM_PLAYER && Alive(NewField(b, env)[j])
    requires env.fx == StrikeAt(BattleStart, NewField(b, env)[j].order, NewField(b, env)[j].hp)
    ensures OpeningKills(b, env)
  {
    var b1 := SpawnWave(b.(wave := b.wave + 1, rows := [], deaths := [], told := {}), env.stage);
    SpawnIs(b, env);
    StruckDown(b1.units, j, b1.units[j].hp);
    hide LandAll, SpawnWave, NewField;
    assert !Alive(OpenWave(b, env).units[j]);
  }

  /** A DEATH NEVER QUEUED: however orderly the client, an opening that kills a living member of
      the party leaves it drawn for good. */
  lemma OpeningDeathLost(b: BattleState, c: Client, i: nat, env: Env)
    requires Fine(b, c, env.stage.enemyBase)
    requires i < |b.units| && b.units[i].team == TEAM_PLAYER && Alive(b.units[i])
    requires env.fx == StrikeAt(BattleStart, b.units[i].order, b.units[i].hp)
    ensures var a := Reply(b, ReqNextWave, env); !Informed(a.b, Hear(c, a.msgs))
  {
    NewFieldRostered(b, env);
    var j := PartyCarriedOver(b, env, b.units[i]);
    OpeningStrikes(b, env, j);
    hide OpeningKills, AdvanceWave, Informed, Reply;
    AdvanceInforms(b, env, c);
    NextWaveServed(b, env);
    HearOne(c, NextWaveMsg(AdvanceWave(b, env)));
  }

  /** With the fight decided and nothing queued, the judge ends the wave. */
  lemma DecidedEnds(b: BattleState, env: Env)
    requires ValidField(b.units) && Decided(b) && b.deaths == []
    ensures var a := Reply(b, ReqJudge, env); a.b == b && |a.msgs| == 1 && a.msgs[0].WaveEnd?
  {
    NothingToDrain(b);
    hide Drain;
    var a := Inner(b, ReqJudge, env);
    assert |a.msgs| == 1 && a.msgs[0].WaveEnd? && a.b == b;
    assert !AnyPopulates(a.msgs);
    assert SentMessages(Drain1(b)) + a.msgs == a.msgs;
  }

  lemma JudgeEnds(ss: Session, env: Env)
    requires ValidField(ss.b.units) && Decided(ss.b) && ss.b.deaths == []
    ensures Serve(ss, Step(ReqJudge, env)) == Session(ss.b, ss.c, true)
  {
    DecidedEnds(ss.b, env);
    hide Reply, Decided;
    var a := Reply(ss.b, ReqJudge, env);
    assert a.msgs == [a.msgs[0]];
    HearOne(ss.c, a.msgs[0]);
  }

  // -- a fight won in order, and a death all the same -----------------------------------

  /** Strikes that take every enemy's last hit point, and nobody else's. */
  function Sweep(us: seq<UnitState>): (es: seq<Effect>)
    ensures |es| == |us|
  {
    seq(|us|, i requires 0 <= i < |us| => Strike(us[i].order, if us[i].team == TEAM_ENEMY then us[i].hp else 0))
  }

  function Swept(u: UnitState): UnitState {
    if u.team == TEAM_ENEMY then u.(hp := 0) else u
  }

  lemma {:induction false} SweepLands(us: seq<UnitState>, n: nat)
    requires DistinctOrders(us) && n <= |us|
    ensures var us' := LandAll(us, Sweep(us)[..n]);
            forall i :: 0 <= i < |us| ==> us'[i] == if i < n then Swept(us[i]) else us[i]
  {
    if n > 0 {
      SweepLands(us, n - 1);
      var es := Sweep(us)[..n];
      assert es[..n - 1] == Sweep(us)[..n - 1];
      var us1 := LandAll(us, es[..n - 1]);
      SameOrdersDistinct(us, us1);
      SweepOne(us1, n - 1, us[n - 1]);
      hide Sweep, Land, Swept, Find;
      assert LandAll(us, es) == Land(us1, es[n - 1]);
    }
  }

  lemma SweepOne(us: seq<UnitState>, i: nat, u: UnitState)
    requires DistinctOrders(us) && i < |us| && us[i] == u
    ensures Land(us, Strike(u.order, if u.team == TEAM_ENEMY then u.hp else 0)) == us[i := Swept(u)]
  {
    FindsPosition(us, i);
  }

  /** A turn settled at once changes nobody's life and queues nothing. */
  lemma SettledQuietly(b: BattleState, fx: Passives)
    requires ValidField(b.units) && Silent(fx) && Acting(b).Some?
    requires var u := b.units[Acting(b).value]; Alive(u) && u.statuses == []
    ensures var b' := StartOfTurn(b, 0, fx);
            b'.deaths == b.deaths && forall k :: 0 <= k < |b.units| ==> Alive(b'.units[k]) == Alive(b.units[k])
  {
    var i := Acting(b).value;
    var b1 := Tick(b, i);
    SilentFire(b1);
    assert !Immobilized(b1.units[i]);
  }

  lemma PlainIsCalm(us: seq<UnitState>)
    requires Plain(us)
    ensures CalmField(us)
  {
  }

  lemma PlainAhead(b: BattleState)
    requires Plain(b.units)
    ensures Plain(Stalls.Ahead(b)) && forall k :: 0 <= k < |b.units| ==> Alive(Stalls.Ahead(b)[k]) == Alive(b.units[k])
  {
  }

  /** On a field without statuses a turn in which nothing fires kills nobody and queues nothing. */
  lemma PlainTurn(b: BattleState, fx: Passives)
    requires ValidField(b.units) && DistinctOrders(b.units) && Plain(b.units) && Silent(fx) && AnyAlive(b.units)
    ensures var b' := EndTurn(b, fx);
            b'.deaths == b.deaths && forall k :: 0 <= k < |b.units| ==> Alive(b'.units[k]) == Alive(b.units[k])
  {
    hide Stalls.Ahead, Rotate, Roll, StartOfTurn, Plain, CalmField, DistinctOrders, ValidField, AnyAlive, Silent;
    PlainIsCalm(b.units);
    PlainAhead(b);
    Stalls.AheadValid(b);
    Stalls.RotateIs(b, fx);
    var b1 := b.(units := Stalls.Ahead(b));
    PlainRoll(b1);
    RotateActing(b, fx, Roll(b1));
    SettledQuietly(Rotate(b, fx), fx);
  }

  lemma RotateActing(b: BattleState, fx: Passives, r: BattleState)
    requires ValidField(b.units) && Rotate(b, fx) == r.(round := r.round + 1, turnOpen := false)
    requires Plain(r.units) && Acting(r).Some?
    ensures Acting(Rotate(b, fx)) == Acting(r) && Rotate(b, fx).units[Acting(r).value].statuses == []
  {
    hide Rotate;
  }

  lemma PlainRoll(b: BattleState)
    requires ValidField(b.units) && DistinctOrders(b.units) && Plain(b.units) && AnyAlive(b.units)
    ensures Plain(Roll(b).units) && Roll(b).deaths == b.deaths && Acting(Roll(b)).Some?
    ensures Alive(Roll(b).units[Acting(Roll(b)).value])
    ensures forall k :: 0 <= k < |b.units| ==> Alive(Roll(b).units[k]) == Alive(b.units[k])
  {
    PlainIsCalm(b.units);
    CalmRoll(b);
    RollHead(b);
    SameLife(b.units, Roll(b).units);
    hide Roll, QueueOf;
  }

  /** An attack that takes every enemy's life, on a field without statuses. */
  lemma SweepWins(b: BattleState, env: Env)
    requires ValidField(b.units) && DistinctOrders(b.units) && Plain(b.units) && Acting(b).Some? && Silent(env.fx)
    requires |b.units| > 0 && b.units[0].order == 101 && b.units[0].team == TEAM_PLAYER && Alive(b.units[0])
    requires forall x: BattleState, y, z, n :: env.resolve(x, y, z, n) == Sweep(x.units)
    ensures var a := PlayerAttack(b, 101, 101, 1, env);
            && a.b.deaths == b.deaths && |a.b.units| == |b.units|
            && Alive(a.b.units[0]) && !TeamAlive(a.b.units, TEAM_ENEMY)
            && forall k :: 0 <= k < |b.units| ==> SameBuild(b.units[k], a.b.units[k])
  {
    var slot := SlotFor(b, 101, 1);
    SweepDone(b, slot, env);
    hide SpendSkill, SlotFor, EndTurn, ResolveSkill, Plain, ValidField, DistinctOrders, Silent, TeamAlive;
    var b2 := ResolveSkill(SpendSkill(b, 101, slot), 101, 101, slot, env).0;
    PlainTurn(b2, env.fx);
    EndTurnFollows(b2, env.fx);
    StaysSwept(b.units, b2.units, EndTurn(b2, env.fx).units);
  }

  lemma StaysSwept(us: seq<UnitState>, us1: seq<UnitState>, us2: seq<UnitState>)
    requires |us| > 0 && Alive(us[0]) && us[0].team == TEAM_PLAYER && |us1| == |us| == |us2|
    requires forall k :: 0 <= k < |us| ==> SameBuild(us[k], us1[k]) && Alive(us1[k]) == (Alive(us[k]) && us[k].team != TEAM_ENEMY)
    requires forall k :: 0 <= k < |us| ==> SameBuild(us1[k], us2[k]) && Alive(us2[k]) == Alive(us1[k])
    ensures Alive(us2[0]) && !TeamAlive(us2, TEAM_ENEMY) && forall k :: 0 <= k < |us| ==> SameBuild(us[k], us2[k])
  {
  }

  lemma SweepDone(b: BattleState, slot: int, env: Env)
    requires ValidField(b.units) && DistinctOrders(b.units) && Plain(b.units)
    requires |b.units| > 0 && b.units[0].order == 101 && b.units[0].team == TEAM_PLAYER && Alive(b.units[0])
    requires forall x: BattleState, y, z, n :: env.resolve(x, y, z, n) == Sweep(x.units)
    ensures var b2 := ResolveSkill(SpendSkill(b, 101, slot), 101, 101, slot, env).0;
            && ValidField(b2.units) && DistinctOrders(b2.units) && Plain(b2.units) && AnyAlive(b2.units)
            && b2.deaths == b.deaths && |b2.units| == |b.units|
            && forall k :: 0 <= k < |b.units| ==>
                 SameBuild(b.units[k], b2.units[k]) && Alive(b2.units[k]) == (Alive(b.units[k]) && b.units[k].team != TEAM_ENEMY)
  {
    hide *;
    var b1 := SpendSkill(b, 101, slot);
    SpentField(b, slot);
    SweepField(b1, slot, env);
    ResolveValid(b1, 101, 101, slot, env);
    SweptField(b.units, b1.units, ResolveSkill(b1, 101, 101, slot, env).0.units);
  }

  /** The same units with the same hit points. */
  ghost predicate Unhurt(us: seq<UnitState>, us': seq<UnitState>) {
    |us'| == |us| && forall k :: 0 <= k < |us| ==> SameBuild(us[k], us'[k]) && us'[k].hp == us[k].hp
  }

  lemma SpentField(b: BattleState, slot: int)
    requires ValidField(b.units) && DistinctOrders(b.units) && Plain(b.units)
    requires |b.units| > 0 && b.units[0].order == 101
    ensures var b1 := SpendSkill(b, 101, slot);
            && ValidField(b1.units) && DistinctOrders(b1.units) && Plain(b1.units) && Unhurt(b.units, b1.units)
            && b1.deaths == b.deaths && |b1.units| == |b.units| && b1.units[0].order == 101
  {
    SpentStands(b, 101, slot);
    SpendSkillValid(b, 101, slot);
    SpendKin(b, 101, slot);
    SpentPlain(b, 101, slot);
    SameOrdersDistinct(b.units, SpendSkill(b, 101, slot).units);
    hide SpendSkill, Plain, ValidUnit, DistinctOrders;
  }

  lemma SweptField(us: seq<UnitState>, us1: seq<UnitState>, us2: seq<UnitState>)
    requires Unhurt(us, us1) && |us2| == |us1| && forall k :: 0 <= k < |us1| ==> us2[k] == Swept(us1[k])
    requires DistinctOrders(us1) && |us| > 0 && us[0].team == TEAM_PLAYER && Alive(us[0])
    ensures DistinctOrders(us2) && AnyAlive(us2) && |us2| == |us|
    ensures forall k :: 0 <= k < |us| ==>
              SameBuild(us[k], us2[k]) && Alive(us2[k]) == (Alive(us[k]) && us[k].team != TEAM_ENEMY)
  {
    assert Alive(us2[0]);
  }

  lemma SpentPlain(b: BattleState, at: nat, slot: int)
    requires Plain(b.units)
    ensures Plain(SpendSkill(b, at, slot).units) && SpendSkill(b, at, slot).deaths == b.deaths
  {
  }

  lemma SweepField(b: BattleState, slot: int, env: Env)
    requires DistinctOrders(b.units) && Plain(b.units) && |b.units| > 0 && b.units[0].order == 101
    requires forall x: BattleState, y, z, n :: env.resolve(x, y, z, n) == Sweep(x.units)
    ensures var b' := ResolveSkill(b, 101, 101, slot, env).0;
            && b'.deaths == b.deaths && b'.turnOrder == b.turnOrder && |b'.units| == |b.units| && Plain(b'.units)
            && forall k :: 0 <= k < |b.units| ==> b'.units[k] == Swept(b.units[k])
  {
    hide LandAll, Landed, HitsOf, StatusOf, Tell, DealtBy, Find, Sweep, Swept, DistinctOrders;
    FindsPosition(b.units, 0);
    SweepLands(b.units, |b.units|);
    assert Sweep(b.units)[..|b.units|] == Sweep(b.units);
    SweptPlain(b.units, LandAll(b.units, Sweep(b.units)));
  }

  lemma SweptPlain(us: seq<UnitState>, us': seq<UnitState>)
    requires Plain(us) && |us'| == |us| && forall k :: 0 <= k < |us| ==> us'[k] == Swept(us[k])
    ensures Plain(us')
  {
  }

  /** A quiet opening leaves nobody with a status, and the first member where it was put. */
  lemma OpensPlain(s: Setup)
    requires s.cast != [] && s.cast[0].hp > 0
    ensures var b := Opening(s, Quiet()).b;
            Plain(b.units) && DistinctOrders(b.units) && b.deaths == [] && |b.units| > 0 && b.units[0].order == 101
  {
    var b0 := Field0(s);
    LinePlain(s, 1);
    assert LandAll(Line(s, 1), []) == Line(s, 1);
    assert b0.(units := Line(s, 1)) == b0;
    assert Line(s, 1)[0] == Party(s)[0];
    OpeningValid(s, Quiet());
    LineRostered(s, 1);
    hide Roll, Line, Party, Plain, Field0;
    assert AnyAlive(b0.units) by { assert Alive(b0.units[0]); }
    PlainRoll(b0);
    RollFollows(b0);
    FollowsDistinct(b0, Roll(b0));
    NewBattleReached(s, Quiet());
  }

  /** The strikes that win the fight. */
  function Sweeping(s: Setup): Env {
    World0(s, Quiet()).(resolve := (b: BattleState, at: nat, de: nat, slot: int) => Sweep(b.units))
  }

  lemma FightWon(s: Setup)
    requires s.cast != [] && s.cast[0].hp > 0
    ensures var ss := Serve(Opening(s, Quiet()), Step(ReqAttack(101, 101, 1), Sweeping(s)));
            && Fine(ss.b, ss.c, StageOf(s).enemyBase) && ss.b.deaths == [] && Decided(ss.b)
            && |ss.b.units| > 0 && ss.b.units[0].team == TEAM_PLAYER && Alive(ss.b.units[0])
  {
    var b, c := Opening(s, Quiet()).b, Opening(s, Quiet()).c;
    OpensAlive(s);
    OpensPlain(s);
    OpeningGood(s, Quiet());
    hide Opening, Plain, PlayerAttack, Reply, Acting, TeamAlive, Silent;
    QuietIsSilent();
    AttackAlone(b, Sweeping(s), 101, 101, 1);
    ReplyFine(b, ReqAttack(101, 101, 1), Sweeping(s), c);
    FineInforms(b, c, StageOf(s).enemyBase);
    hide Fine, Informed;
    SweepWins(b, Sweeping(s));
  }

  lemma QuietIsSilent()
    ensures Silent(Quiet())
  {
  }

  /** So even a session that changes waves only on the reply that ended one can lose a death: an
      attack wins the fight, the judge ends the wave, and the next wave's opening kills. */
  lemma OrderlyLosesToo(s: Setup, env: Env)
    requires s.cast != [] && s.cast[0].hp > 0 && env.stage == StageOf(s)
    ensures var won := Serve(Opening(s, Quiet()), Step(ReqAttack(101, 101, 1), Sweeping(s)));
            && |won.b.units| > 0 && !TeamAlive(won.b.units, TEAM_ENEMY)
            && (var kill := World0(s, StrikeAt(BattleStart, won.b.units[0].order, won.b.units[0].hp));
                var over := Serve(won, Step(ReqJudge, env));
                var next := Serve(over, Step(ReqNextWave, kill));
                over.ended && !Informed(next.b, next.c))
  {
    var won := Serve(Opening(s, Quiet()), Step(ReqAttack(101, 101, 1), Sweeping(s)));
    FightWon(s);
    hide Opening, Fine, Reply, Informed, Acting, StageOf, WaveMobs;
    StillStanding(won.b);
    hide TeamAlive;
    JudgeEnds(won, env);
    var kill := World0(s, StrikeAt(BattleStart, won.b.units[0].order, won.b.units[0].hp));
    OpeningDeathLost(won.b, won.c, 0, kill);
  }

  lemma StillStanding(b: BattleState)
    requires Decided(b) && |b.units| > 0 && b.units[0].team == TEAM_PLAYER && Alive(b.units[0])
    ensures !TeamAlive(b.units, TEAM_ENEMY)
  {
    assert TeamAlive(b.units, TEAM_PLAYER);
  }

  // -- a head that its own turn kills ----------------------------------------------------

  /** A DEAD HEAD: from any field without statuses, a turn-start passive that kills the unit whose
      turn begins leaves that unit heading the queue, dead, with nobody seated in its place. */
  lemma DeadHeadSeated(b: BattleState)
    requires ValidField(b.units) && DistinctOrders(b.units) && Plain(b.units) && AnyAlive(b.units)
    ensures var r := Rotate(b, Quiet());
            && Acting(r).Some?
            && (var u := r.units[Acting(r).value];
                var b' := EndTurn(b, StrikeAt(TurnStart(0), u.order, u.hp));
                Acting(b') == Acting(r) && !Alive(b'.units[Acting(r).value]))
  {
    hide Rotate, Acting, Plain, AnyAlive, StartOfTurn, Follows;
    var r := Rotate(b, Quiet());
    PlainRotates(b, Quiet());
    RotateFollows(b, Quiet());
    var i := Acting(r).value;
    var fx := StrikeAt(TurnStart(0), r.units[i].order, r.units[i].hp);
    SameRotation(b, fx);
    TickStruck(r, i, fx);
  }

  lemma PlainRotates(b: BattleState, fx: Passives)
    requires ValidField(b.units) && DistinctOrders(b.units) && Plain(b.units) && AnyAlive(b.units) && Silent(fx)
    ensures var r := Rotate(b, fx);
            Acting(r).Some? && Alive(r.units[Acting(r).value]) && r.units[Acting(r).value].statuses == []
  {
    hide Stalls.Ahead, Rotate, Roll, Plain, CalmField, Silent, ValidField, DistinctOrders, AnyAlive, Acting;
    PlainIsCalm(b.units);
    PlainAhead(b);
    Stalls.AheadValid(b);
    Stalls.RotateIs(b, fx);
    var b1 := b.(units := Stalls.Ahead(b));
    PlainRoll(b1);
    RotateActing(b, fx, Roll(b1));
  }

  lemma FinishSame(b: BattleState, i: nat, fx: Passives)
    requires i < |b.units| && forall x: BattleState :: fx(AfterAction, x) == []
    ensures FinishAction(b, i, fx) == FinishAction(b, i, Quiet())
  {
    hide Fire;
  }

  lemma SameRotation(b: BattleState, fx: Passives)
    requires ValidField(b.units) && forall x: BattleState :: fx(AfterAction, x) == []
    ensures Rotate(b, fx) == Rotate(b, Quiet())
  {
    if Acting(b).Some? { FinishSame(b, Acting(b).value, fx); }
    hide Roll, AgeBlocks, FinishAction, Acting;
  }

  lemma TickStruck(r: BattleState, i: nat, fx: Passives)
    requires ValidField(r.units) && DistinctOrders(r.units) && Acting(r) == Some(i) && Alive(r.units[i]) && r.units[i].statuses == []
    requires fx == StrikeAt(TurnStart(0), r.units[i].order, r.units[i].hp)
    ensures var b' := StartOfTurn(r, 0, fx); Acting(b') == Acting(r) && !Alive(b'.units[i])
  {
    var b1 := Tick(r, i);
    var es := fx(TurnStart(0), b1);
    TurnTheorems.StaysSeated(r, i, es);
    SameOrdersDistinct(r.units, b1.units);
    StruckDown(b1.units, i, r.units[i].hp);
    KilledUnheld(b1, i, es);
    hide Fire, Roll, Skip;
  }

  lemma KilledUnheld(b: BattleState, i: nat, es: seq<Effect>)
    requires DistinctOrders(b.units) && i < |b.units| && b.units[i].statuses == [] && es == [Strike(b.units[i].order, b.units[i].hp)]
    ensures !Immobilized(Fire(b, es).units[i]) && !Alive(Fire(b, es).units[i])
  {
    FindsPosition(b.units, i);
    assert es[..0] == [];
    assert LandAll(b.units, es[..0]) == b.units;
  }

  // -- what resuming loses ------------------------------------------------------------

  /** A SWAP DOES NOT SURVIVE: once the acting unit has changed places with a unit of another slot,
      no restart gives the units back, whatever happens in the replay. */
  lemma SwapIsForgotten(b: BattleState, s: Setup, o: nat, env: Env, world: World)
    requires Reached(b, s) && WorldOf(world, s) && env.stage == StageOf(s) && SameSlots(Line(s, b.wave), b.units)
    requires && Acting(b).Some? && Find(b.units, o).Some?
             && b.units[Find(b.units, o).value].index != b.units[Acting(b).value].index
    ensures ValidField(b.units)
    ensures var b' := Reply(b, ReqChangeChar(o), env).b;
            Fits(ToState(b', s), world) && Restore(ToState(b', s), world).units != b'.units
  {
    ReachedValid(b, s);
    ReplyReached(b, ReqChangeChar(o), env, s);
    hide Reached, Reply, Fits, Restore, Line, LandAll;
    SwapServed(b, o, env);
    SwappedUnits(b, Reply(b, ReqChangeChar(o), env).b, s, world);
  }

  lemma SwappedUnits(b: BattleState, b': BattleState, s: Setup, world: World)
    requires Reached(b', s) && WorldOf(world, s) && SameSlots(Line(s, b.wave), b.units) && b'.wave == b.wave
    requires exists j :: 0 <= j < |b.units| && j < |b'.units| && b'.units[j].index != b.units[j].index
    ensures Fits(ToState(b', s), world) && Restore(ToState(b', s), world).units != b'.units
  {
    ReachedWave(b', s);
    hide Reached, Fits, Restore, Line, LandAll;
    if b'.wave >= 2 {
      ResumeIsExact(b', s, world);
    } else {
      FirstWaveIsExact(b', s, world);
    }
  }

  lemma ReachedWave(b: BattleState, s: Setup)
    requires Reached(b, s)
    ensures b.wave >= 1
  {
  }

  lemma SwapServed(b: BattleState, o: nat, env: Env)
    requires ValidField(b.units) && Acting(b).Some? && Find(b.units, o).Some?
    requires b.units[Find(b.units, o).value].index != b.units[Acting(b).value].index
    ensures var b' := Reply(b, ReqChangeChar(o), env).b;
            b'.wave == b.wave && |b'.units| == |b.units|
            && b'.units[Acting(b).value].index != b.units[Acting(b).value].index
  {
    var i, j := Find(b.units, o).value, Acting(b).value;
    var a := Inner(b, ReqChangeChar(o), env);
    assert Acting(b) == Find(b.units, b.units[j].order);
    assert a.b.units[j].index == b.units[i].index;
    hide Inner, Drain;
  }

  /** And in every battle of two or more with a living first member there is such a unit. */
  lemma SomebodyToSwap(s: Setup) returns (o: nat)
    requires |s.cast| >= 2 && s.cast[0].hp > 0
    ensures var b := NewBattle(s, Quiet());
            && Reached(b, s) && SameSlots(Line(s, b.wave), b.units)
            && Acting(b).Some? && Find(b.units, o).Some?
            && b.units[Find(b.units, o).value].index != b.units[Acting(b).value].index
  {
    var b := NewBattle(s, Quiet());
    OpensAlive(s);
    BuiltSlots(s, Quiet());
    OpensFirst(s, Quiet());
    NewBattleReached(s, Quiet());
    ReachedSound(b, s);
    assert Line(s, 1)[0] == Party(s)[0] && Line(s, 1)[1] == Party(s)[1];
    hide NewBattle, Acting, Seat, Line;
    var other := if b.units[Acting(b).value].index == 0 then 1 else 0;
    FindsPosition(b.units, other);
    o := b.units[other].order;
  }
}
