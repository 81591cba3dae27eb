/** Saving a battle and picking it up again: build the battle anew, replay the waves already
    won, and patch in what has changed since. */
module Resume {
  import opened Units
  import opened TurnQueue
  import opened Turns
  import opened News
  import opened Replies
  import opened ClientPicture
  import opened Sessions
  import opened Lineage
  import opened NoDeathUntold
  import opened Reach

  /** What is saved of a unit: what battle can change, and not what it was built from. */
  datatype SavedUnit = SavedUnit(
    order: nat, hp: nat, maxHp: nat, scv: real, charge: nat, cooldowns: seq<nat>,
    dmgDone: nat, dmgTaken: nat, healed: nat, statuses: seq<Active>)

  datatype Saved = Saved(
    setup: Setup, wave: nat, round: nat, damageSum: nat, auto: bool, totals: map<nat, Total>, turnOrder: seq<nat>, units: seq<SavedUnit>)

  function Save(u: UnitState): SavedUnit {
    SavedUnit(u.order, u.hp, u.maxHp, u.scv, u.charge, u.cooldowns, u.dmgDone, u.dmgTaken, u.healed, u.statuses)
  }

  function Saves(us: seq<UnitState>): (r: seq<SavedUnit>)
    ensures |r| == |us| && forall i :: 0 <= i < |us| ==> r[i] == Save(us[i])
  {
    seq(|us|, i requires 0 <= i < |us| => Save(us[i]))
  }

  function ToState(b: BattleState, s: Setup): Saved {
    Saved(s, b.wave, b.round, b.damageSum, b.auto, b.totals, b.turnOrder, Saves(b.units))
  }

  function Patched(u: UnitState, sv: SavedUnit): UnitState {
    u.(hp := sv.hp, maxHp := sv.maxHp, scv := sv.scv, charge := sv.charge, cooldowns := sv.cooldowns,
       dmgDone := sv.dmgDone, dmgTaken := sv.dmgTaken, healed := sv.healed, statuses := sv.statuses)
  }

  /** Patch the units a save names; a save of a unit that is no longer built is passed over. */
  function PatchAll(us: seq<UnitState>, svs: seq<SavedUnit>): (us': seq<UnitState>)
    ensures |us'| == |us|
    decreases |svs|
  {
    if svs == [] then us
    else
      var us1 := PatchAll(us, svs[..|svs| - 1]);
      var sv := svs[|svs| - 1];
      match Find(us1, sv.order)
      case None => us1
      case Some(i) => us1[i := Patched(us1[i], sv)]
  }

  function OnField(us: seq<UnitState>, q: seq<nat>): seq<nat> {
    if q == [] then [] else (if Find(us, q[0]).Some? then [q[0]] else []) + OnField(us, q[1..])
  }

  /** What chance and the engine do while each wave is replayed. */
  type World = nat -> Env

  ghost predicate WorldOf(world: World, s: Setup) {
    forall w :: world(w).stage == StageOf(s)
  }

  ghost function Replay(s: Setup, world: World, wave: nat): (b: BattleState)
    ensures ValidField(b.units)
  {
    if wave <= 1 then NewBattle(s, world(wave).fx) else AdvanceWave(Replay(s, world, wave - 1), world(wave))
  }

  /** The replayed battle with the save patched in, before its queue is restored. */
  ghost function Patchwork(sv: Saved, world: World): BattleState {
    var b := Replay(sv.setup, world, sv.wave);
    var us := PatchAll(b.units, sv.units);
    b.(round := sv.round, damageSum := sv.damageSum, auto := sv.auto, totals := sv.totals, units := us, turnOrder := OnField(us, sv.turnOrder))
  }

  /** A save whose numbers fit the units they are patched into. */
  ghost predicate Fits(sv: Saved, world: World) {
    ValidField(Patchwork(sv, world).units)
  }

  ghost function Restore(sv: Saved, world: World): BattleState
    requires Fits(sv, world)
  {
    var b := Patchwork(sv, world);
    if b.turnOrder == [] then Roll(b) else b
  }

  // -- replaying --------------------------------------------------------------------

  lemma {:induction false} ReplayReached(s: Setup, world: World, wave: nat)
    requires WorldOf(world, s)
    ensures Reached(Replay(s, world, wave), s)
    ensures Replay(s, world, wave).wave == if wave <= 1 then 1 else wave
    ensures Replay(s, world, wave).deaths == []
  {
    hide Reached, NewBattle, AdvanceWave;
    if wave <= 1 {
      NewBattleReached(s, world(wave).fx);
      OpensFirst(s, world(wave).fx);
    } else {
      ReplayReached(s, world, wave - 1);
      ReplayStep(Replay(s, world, wave - 1), s, world(wave));
    }
  }

  lemma OpensFirst(s: Setup, fx: Passives)
    ensures NewBattle(s, fx).wave == 1
  {
    OpeningValid(s, fx);
    RollKin(Field0(s).(units := LandAll(Line(s, 1), fx(BattleStart, Field0(s)))));
    hide Roll, LandAll, Line;
  }

  lemma ReplayStep(b: BattleState, s: Setup, env: Env)
    requires Reached(b, s) && env.stage == StageOf(s)
    ensures ValidField(b.units)
    ensures Reached(AdvanceWave(b, env), s) && AdvanceWave(b, env).wave == b.wave + 1 && AdvanceWave(b, env).deaths == []
  {
    AdvanceKeeps(b, env);
    NextWaveServed(b, env);
    ReplyReached(b, ReqNextWave, env, s);
  }

  lemma {:induction false} ReplayFlags(s: Setup, world: World, wave: nat)
    ensures var b := Replay(s, world, wave); b.told == {} && !b.turnOpen && !b.waveBegun
  {
    if wave <= 1 {
      var b0 := Field0(s).(units := LandAll(Line(s, 1), world(wave).fx(BattleStart, Field0(s))));
      OpeningValid(s, world(wave).fx);
      RollFlags(b0);
    } else {
      AdvanceFlags(Replay(s, world, wave - 1), world(wave));
    }
  }

  lemma RollFlags(b: BattleState)
    requires ValidField(b.units)
    ensures Roll(b).told == b.told && Roll(b).turnOpen == b.turnOpen && Roll(b).waveBegun == b.waveBegun
  {
    RollFollows(b);
    UnblockTurn(b);
  }

  lemma {:induction false} UnblockTurn(b: BattleState)
    ensures Unblock(b).turnOpen == b.turnOpen
    decreases FieldBlockTurns(b.units)
  {
    if AnyAlive(b.units) && !AnyFillable(b.units) && AgesSomething(b.units) {
      AgingEnds(b);
      UnblockTurn(AgeBlocks(b));
    }
  }

  lemma AdvanceFlags(b: BattleState, env: Env)
    requires ValidField(b.units)
    ensures var b' := AdvanceWave(b, env); b'.told == {} && !b'.turnOpen && !b'.waveBegun
  {
    OpenWaveValid(b, env);
    RollFlags(OpenWave(b, env));
    hide Roll, LandAll, BankAll;
  }

  // -- patching ---------------------------------------------------------------------

  /** Patching the first `n` saves of a field into its rebuilt twin patches the first `n` units. */
  lemma {:induction false} PatchesFirst(us: seq<UnitState>, vs: seq<UnitState>, n: nat)
    requires SameBuilds(us, vs) && DistinctOrders(us) && n <= |us|
    ensures var r := PatchAll(us, Saves(vs)[..n]);
            forall i :: 0 <= i < |us| ==> r[i] == if i < n then Patched(us[i], Save(vs[i])) else us[i]
  {
    if n > 0 {
      PatchesFirst(us, vs, n - 1);
      assert Saves(vs)[..n][..n - 1] == Saves(vs)[..n - 1];
      var us1 := PatchAll(us, Saves(vs)[..n - 1]);
      assert DistinctOrders(us1);
      FindsPosition(us1, n - 1);
    }
  }

  lemma {:induction false} AllOnField(us: seq<UnitState>, q: seq<nat>)
    requires forall k :: 0 <= k < |q| ==> Find(us, q[k]).Some?
    ensures OnField(us, q) == q
  {
    if q != [] {
      AllOnField(us, q[1..]);
    }
  }

  /** A unit rebuilt and patched is the unit that was saved, but for its slot and banked gauge. */
  function Carried(v: UnitState, u: UnitState): UnitState {
    v.(index := u.index, pendingScv := u.pendingScv)
  }

  lemma PatchworkIs(b: BattleState, s: Setup, world: World)
    requires Reached(b, s) && WorldOf(world, s)
    ensures var us := Replay(s, world, b.wave).units; var p := Patchwork(ToState(b, s), world);
            && |us| == |b.units| == |p.units| && p.turnOrder == b.turnOrder && p.wave == b.wave
            && forall i :: 0 <= i < |us| ==> p.units[i] == Carried(b.units[i], us[i])
  {
    var us := Replay(s, world, b.wave).units;
    ReplayReached(s, world, b.wave);
    Twins(Line(s, b.wave), us, b.units);
    ReachedSound(Replay(s, world, b.wave), s);
    hide Replay, Line;
    PatchesAll(us, b.units);
    var p := PatchAll(us, Saves(b.units));
    SeatPatched(b, p);
    hide Carried, Saves, PatchAll, Seat;
  }

  lemma PatchesAll(us: seq<UnitState>, vs: seq<UnitState>)
    requires SameBuilds(us, vs) && DistinctOrders(us)
    ensures var p := PatchAll(us, Saves(vs));
            forall i :: 0 <= i < |us| ==> p[i] == Carried(vs[i], us[i]) && p[i].order == vs[i].order
  {
    PatchesFirst(us, vs, |us|);
    assert Saves(vs)[..|us|] == Saves(vs);
    forall i | 0 <= i < |us| ensures PatchAll(us, Saves(vs))[i] == Carried(vs[i], us[i]) {
      assert PatchAll(us, Saves(vs))[i] == Patched(us[i], Save(vs[i]));
    }
  }

  lemma SeatPatched(b: BattleState, p: seq<UnitState>)
    requires Seat(b) && |p| == |b.units| && forall i :: 0 <= i < |p| ==> p[i].order == b.units[i].order
    ensures OnField(p, b.turnOrder) == b.turnOrder
  {
    forall k | 0 <= k < |b.turnOrder| ensures Find(p, b.turnOrder[k]).Some? {
      SameOrdersFind(b.units, p, b.turnOrder[k]);
    }
    AllOnField(p, b.turnOrder);
  }

  lemma Twins(line: seq<UnitState>, us: seq<UnitState>, vs: seq<UnitState>)
    requires SameBuilds(line, us) && SameBuilds(line, vs)
    ensures SameBuilds(us, vs)
  {
  }

  lemma CarriedValid(us: seq<UnitState>, vs: seq<UnitState>, ps: seq<UnitState>)
    requires ValidField(vs) && |us| == |vs| == |ps|
    requires forall i :: 0 <= i < |us| ==> ps[i] == Carried(vs[i], us[i])
    ensures ValidField(ps) && (AnyAlive(ps) <==> AnyAlive(vs)) && Saves(ps) == Saves(vs) && SameBuilds(vs, ps)
  {
    SameLife(vs, ps);
  }

  // -- resuming ---------------------------------------------------------------------

  /** WHAT RESUMING GIVES BACK, exactly: the battle that was saved, with its flags down, no
      news queued and nothing told, and each unit as it was but for its slot and banked gauge,
      which are those of the replay. */
  lemma RestoreIs(b: BattleState, s: Setup, world: World)
    requires Reached(b, s) && WorldOf(world, s)
    ensures Fits(ToState(b, s), world)
    ensures var r := Restore(ToState(b, s), world); var f := Replay(s, world, b.wave);
            && |r.units| == |b.units| == |f.units|
            && (forall i :: 0 <= i < |b.units| ==> r.units[i] == Carried(b.units[i], f.units[i]))
            && r == b.(units := r.units, deaths := [], rows := f.rows, told := {}, turnOpen := false, waveBegun := false)
  {
    var f := Replay(s, world, b.wave);
    var p := Patchwork(ToState(b, s), world);
    ReplayReached(s, world, b.wave);
    ReplayFlags(s, world, b.wave);
    PatchworkIs(b, s, world);
    CarriedValid(f.units, b.units, p.units);
    hide Replay, PatchAll, ValidField, SameBuilds;
    if p.turnOrder == [] { NobodyRolls(p); }
  }

  lemma NobodyRolls(b: BattleState)
    requires ValidField(b.units) && !AnyAlive(b.units) && b.turnOrder == []
    ensures Roll(b) == b
  {
  }

  /** SAVE AND RESUME IS LOSSLESS on what is saved, for every reachable battle, whatever the
      engine does during the replay. */
  lemma ResumeIsLossless(b: BattleState, s: Setup, world: World)
    requires Reached(b, s) && WorldOf(world, s)
    ensures Fits(ToState(b, s), world)
    ensures ToState(Restore(ToState(b, s), world), s) == ToState(b, s)
  {
    RestoreIs(b, s, world);
    var r := Restore(ToState(b, s), world);
    CarriedValid(Replay(s, world, b.wave).units, b.units, r.units);
    hide Restore, Replay;
  }

  // -- where everybody is put ---------------------------------------------------------

  /** The same units in the same slots. */
  ghost predicate SameSlots(us: seq<UnitState>, us': seq<UnitState>) {
    |us'| == |us| && forall i :: 0 <= i < |us| ==> us'[i].index == us[i].index
  }

  /** And with the same gauge gains banked. */
  ghost predicate SamePlaces(us: seq<UnitState>, us': seq<UnitState>) {
    |us'| == |us| && forall i :: 0 <= i < |us| ==> us'[i].index == us[i].index && us'[i].pendingScv == us[i].pendingScv
  }

  lemma {:induction false} LandAllSlots(us: seq<UnitState>, es: seq<Effect>)
    ensures SameSlots(us, LandAll(us, es))
    decreases |es|
  {
    if es != [] {
      LandAllSlots(us, es[..|es| - 1]);
    }
  }

  lemma StillInPlace(us: seq<UnitState>)
    ensures SamePlaces(us, us) && SamePlaces(us, AgeUnits(us)) && SamePlaces(us, ForceFastest(us))
  {
  }

  lemma PlacesOn(us: seq<UnitState>, us1: seq<UnitState>, us2: seq<UnitState>)
    requires SamePlaces(us, us1) && SamePlaces(us1, us2)
    ensures SamePlaces(us, us2)
  {
  }

  lemma {:induction false} UnblockPlaces(b: BattleState)
    ensures SamePlaces(b.units, Unblock(b).units)
    decreases FieldBlockTurns(b.units)
  {
    hide AgeUnits, ForceFastest, AnyFillable, AnyAlive, AgesSomething, SamePlaces;
    StillInPlace(b.units);
    if AnyAlive(b.units) && !AnyFillable(b.units) && AgesSomething(b.units) {
      AgingEnds(b);
      UnblockPlaces(AgeBlocks(b));
      PlacesOn(b.units, AgeUnits(b.units), Unblock(AgeBlocks(b)).units);
    }
  }

  lemma RollPlaces(b: BattleState)
    requires ValidField(b.units)
    ensures SamePlaces(b.units, Roll(b).units)
  {
    UnblockPlaces(b);
    UnblockValid(b);
  }

  /** The field of the first wave once its battle-start passives have fired. */
  function Opened1(s: Setup, fx: Passives): (us: seq<UnitState>)
    ensures |us| == |Line(s, 1)|
  {
    LandAll(Line(s, 1), fx(BattleStart, Field0(s)))
  }

  /** A battle that has just been built has everybody in the slot it was given, with what the
      opening banked. */
  lemma BuiltSlots(s: Setup, fx: Passives)
    ensures SameSlots(Line(s, 1), NewBattle(s, fx).units) && SamePlaces(Opened1(s, fx), NewBattle(s, fx).units)
  {
    OpeningValid(s, fx);
    LandAllSlots(Line(s, 1), fx(BattleStart, Field0(s)));
    hide LandAll, Line, Roll;
    RollPlaces(Field0(s).(units := LandAll(Line(s, 1), fx(BattleStart, Field0(s)))));
  }

  lemma {:induction false} OfTeamSlots(us: seq<UnitState>, us': seq<UnitState>, team: int)
    requires SameSlots(us, us') && SameBuilds(us, us')
    ensures SameSlots(OfTeam(us, team), OfTeam(us', team))
  {
    if us != [] {
      hide SameBuild;
      var n := |us| - 1;
      OfTeamSlots(us[..n], us'[..n], team);
      SameTeam(us[n], us'[n]);
    }
  }

  /** A change of waves keeps the party's slots, puts the mobs in theirs, and banks nothing. */
  lemma AdvanceSlots(b: BattleState, s: Setup, env: Env)
    requires Reached(b, s) && env.stage == StageOf(s) && SameSlots(Line(s, b.wave), b.units)
    ensures ValidField(b.units)
    ensures var us := AdvanceWave(b, env).units;
            SameSlots(Line(s, b.wave + 1), us) && forall i :: 0 <= i < |us| ==> us[i].pendingScv == 0.0
  {
    SidesOfLine(s, b.wave);
    OfTeamSlots(Line(s, b.wave), b.units, TEAM_PLAYER);
    FieldSlots(b, s, env);
    OpenWaveValid(b, env);
    RollPlaces(OpenWave(b, env));
    hide OpenWave, Roll, Line;
  }

  lemma FieldSlots(b: BattleState, s: Setup, env: Env)
    requires env.stage == StageOf(s) && SameSlots(Party(s), OfTeam(b.units, TEAM_PLAYER))
    ensures SameSlots(Line(s, b.wave + 1), OpenWave(b, env).units)
    ensures forall i :: 0 <= i < |OpenWave(b, env).units| ==> OpenWave(b, env).units[i].pendingScv == 0.0
  {
    OpenWaveIs(b, env);
    LandAllSlots(NewField(b, env), OpeningOf(b, env));
    NewFieldSlots(b, s, env);
    hide LandAll, NewField, OpenWave, OpeningOf, Line;
    ResetSlots(LandAll(NewField(b, env), OpeningOf(b, env)));
  }

  lemma ResetSlots(us: seq<UnitState>)
    ensures SameSlots(us, ResetGauges(us)) && forall i :: 0 <= i < |us| ==> ResetGauges(us)[i].pendingScv == 0.0
  {
  }

  lemma NewFieldSlots(b: BattleState, s: Setup, env: Env)
    requires env.stage == StageOf(s) && SameSlots(Party(s), OfTeam(b.units, TEAM_PLAYER))
    ensures SameSlots(Line(s, b.wave + 1), NewField(b, env))
  {
    hide OfTeam, WaveMobs, Party;
  }

  /** Whatever happens in it, a replay puts everybody in the slot they were given; and beyond the
      first wave nobody has a gain banked. */
  lemma {:induction false} ReplaySlots(s: Setup, world: World, wave: nat)
    requires WorldOf(world, s) && wave >= 1
    ensures var us := Replay(s, world, wave).units;
            && SameSlots(Line(s, wave), us)
            && (if wave == 1 then SamePlaces(Opened1(s, world(1).fx), us) else forall i :: 0 <= i < |us| ==> us[i].pendingScv == 0.0)
    decreases wave
  {
    hide NewBattle, AdvanceWave, Line, Reached, LandAll;
    if wave == 1 {
      BuiltSlots(s, world(1).fx);
    } else {
      ReplaySlots(s, world, wave - 1);
      ReplayReached(s, world, wave - 1);
      AdvanceSlots(Replay(s, world, wave - 1), s, world(wave));
    }
  }

  lemma SameUnits(b: BattleState, s: Setup, world: World)
    requires Reached(b, s) && WorldOf(world, s)
    ensures Fits(ToState(b, s), world)
    ensures var r := Restore(ToState(b, s), world); var f := Replay(s, world, b.wave);
            |f.units| == |b.units| && (r.units == b.units <==> SamePlaces(f.units, b.units))
  {
    hide Restore, Replay, Reached, Fits, ToState;
    RestoreIs(b, s, world);
    CarriedSame(b.units, Replay(s, world, b.wave).units, Restore(ToState(b, s), world).units);
  }

  lemma CarriedSame(vs: seq<UnitState>, us: seq<UnitState>, rs: seq<UnitState>)
    requires |rs| == |vs| == |us| && forall i :: 0 <= i < |vs| ==> rs[i] == Carried(vs[i], us[i])
    ensures rs == vs <==> SamePlaces(us, vs)
  {
    forall i | 0 <= i < |vs| ensures rs[i] == vs[i] <==> vs[i].index == us[i].index && vs[i].pendingScv == us[i].pendingScv {
    }
  }

  /** WHEN THE SAME UNITS COME BACK, exactly: from the second wave on, whatever the engine does in
      the replay, they do if and only if everybody stands in the slot the line gives it and nobody
      has a gauge gain banked. */
  lemma ResumeIsExact(b: BattleState, s: Setup, world: World)
    requires Reached(b, s) && WorldOf(world, s) && b.wave >= 2
    ensures Fits(ToState(b, s), world)
    ensures Restore(ToState(b, s), world).units == b.units
       <==> SameSlots(Line(s, b.wave), b.units) && forall i :: 0 <= i < |b.units| ==> b.units[i].pendingScv == 0.0
  {
    hide Restore, Replay, Reached, Fits, Line, SamePlaces, SameSlots;
    SameUnits(b, s, world);
    ReplaySlots(s, world, b.wave);
    LaterPlaces(Line(s, b.wave), Replay(s, world, b.wave).units, b.units);
  }

  lemma LaterPlaces(line: seq<UnitState>, f: seq<UnitState>, us: seq<UnitState>)
    requires SameSlots(line, f) && forall i :: 0 <= i < |f| ==> f[i].pendingScv == 0.0
    ensures SamePlaces(f, us) <==> SameSlots(line, us) && forall i :: 0 <= i < |us| ==> us[i].pendingScv == 0.0
  {
  }

  lemma FirstPlaces(line: seq<UnitState>, start: seq<UnitState>, f: seq<UnitState>, us: seq<UnitState>)
    requires SameSlots(line, f) && SamePlaces(start, f)
    ensures SamePlaces(f, us) <==> SameSlots(line, us) && SamePlaces(start, us)
  {
  }

  /** And in the first wave, if and only if everybody stands there with what the opening banked. */
  lemma FirstWaveIsExact(b: BattleState, s: Setup, world: World)
    requires Reached(b, s) && WorldOf(world, s) && b.wave == 1
    ensures Fits(ToState(b, s), world)
    ensures Restore(ToState(b, s), world).units == b.units
       <==> SameSlots(Line(s, 1), b.units) && SamePlaces(Opened1(s, world(1).fx), b.units)
  {
    hide Restore, Replay, Reached, Fits, Line, Opened1, SamePlaces, SameSlots;
    SameUnits(b, s, world);
    ReplaySlots(s, world, 1);
    FirstPlaces(Line(s, 1), Opened1(s, world(1).fx), Replay(s, world, 1).units, b.units);
  }

  /** A resumed battle is a reachable one, and its client, sent the whole field afresh, is
      informed: the queue that was not saved is not missed. */
  lemma ResumeIsGood(b: BattleState, s: Setup, world: World)
    requires Reached(b, s) && WorldOf(world, s)
    ensures Fits(ToState(b, s), world)
    ensures var r := Restore(ToState(b, s), world);
            Reached(r, s)
            && Good(Session(r, Present(r.units), false), StageOf(s).enemyBase)
  {
    RestoreIs(b, s, world);
    var r := Restore(ToState(b, s), world);
    CarriedValid(Replay(s, world, b.wave).units, b.units, r.units);
    hide Restore, Replay;
    CarriedReached(b, r, s);
    ReachedSound(r, s);
    FreshGood(r, StageOf(s).enemyBase);
  }

  lemma CarriedReached(b: BattleState, r: BattleState, s: Setup)
    requires Reached(b, s) && ValidField(r.units) && SameBuilds(b.units, r.units) && (AnyAlive(r.units) <==> AnyAlive(b.units))
    requires r.wave == b.wave && r.waveMax == b.waveMax && r.tellNonFatal == b.tellNonFatal && r.turnOrder == b.turnOrder
    ensures Reached(r, s)
  {
    forall k | 0 <= k < |r.turnOrder| ensures Find(r.units, r.turnOrder[k]).Some? {
      SameOrdersFind(b.units, r.units, r.turnOrder[k]);
    }
    BuildsOn(Line(s, b.wave), b.units, r.units);
  }

  lemma FreshGood(r: BattleState, base: nat)
    requires Sound(r, base) && r.deaths == []
    ensures Good(Session(r, Present(r.units), false), base)
  {
    var c := Present(r.units);
    forall i | 0 <= i < |r.units| ensures Draws(c, r.units[i]) == Alive(r.units[i]) {
      OnTeam(r.units, i, r.units[i].team);
    }
  }
}
