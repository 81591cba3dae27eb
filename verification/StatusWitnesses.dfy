/** When a battle, a wave or a rejoined battle opens level with its client, exactly; and sessions in
    which a removal finds nothing. */
module StatusWitnesses {
  import opened Wrappers
  import opened GaugeRace
  import opened Units
  import opened StatusRows
  import opened TurnQueue
  import opened Turns
  import opened Replies
  import opened Sessions
  import opened Reach
  import opened Calm
  import opened Witnesses
  import opened Resume
  import opened NoDeathUntold
  import opened Lineage
  import opened Lives
  import opened Bearings
  import opened Told
  import opened RemovalsFound

  // -- openings -----------------------------------------------------------------------

  lemma {:induction false} AgeRemoves(us: seq<UnitState>, n: nat)
    requires n <= |us|
    ensures forall j :: 0 <= j < |AgeRemovals(us, n)| ==> !AgeRemovals(us, n)[j].applied
  {
    hide Expired, Blocked;
    if n > 0 { AgeRemoves(us, n - 1); }
  }

  lemma {:induction false} RollRemoves(us: seq<UnitState>)
    ensures forall j :: 0 <= j < |RollChanges(us)| ==> !RollChanges(us)[j].applied
    decreases FieldBlockTurns(us)
  {
    hide AnyAlive, AnyFillable, AgesSomething, AgeRemovals, AgeUnits;
    if !(!AnyAlive(us) || AnyFillable(us) || !AgesSomething(us)) {
      AgeShrinks(us);
      AgeRemoves(us, |us|);
      RollRemoves(AgeUnits(us));
    }
  }

  /** Everything on the field that the client knows, it holds. */
  ghost predicate HoldsAll(us: seq<UnitState>, h: Held, wireable: int -> bool) {
    forall k: Key :: wireable(k.1) && Bears(us, k) ==> k in h
  }

  /** The client holds exactly what is on the field and it knows. */
  ghost predicate HoldsJust(us: seq<UnitState>, h: Held, wireable: int -> bool) {
    forall k: Key :: wireable(k.1) ==> (k in h <==> Bears(us, k))
  }

  lemma RollAt(b: BattleState, k: Key)
    requires Tidy(b) && b.rows == [] && b.told == {} && ValidField(b.units)
    ensures Bears(Roll(b).units, k) <==> Bears(b.units, k) && LastChange(RollChanges(b.units), k).None?
    ensures RemovalQueued(Roll(b), k) <==> LastChange(RollChanges(b.units), k).Some?
    ensures LastChange(RollChanges(b.units), k).None? ==> LastOf(Roll(b).rows, k).None?
    ensures LastChange(RollChanges(b.units), k).Some? ==> Bears(b.units, k)
  {
    RollMoves(b, Roll(b).round);
    RollRemoves(b.units);
    hide Roll, RollChanges, Bears;
    var cs := RollChanges(b.units);
    OnlyRemovals(cs, k);
    QueueHolds(b.told, b.wave, cs, k);
    if LastChange(cs, k).Some? { FirstGone(Bears(b.units, k), cs, k); }
  }

  /** A roll with nothing told keeps level exactly the client that holds all there is on the field. */
  lemma RollLevel(b: BattleState, h: Held, wireable: int -> bool)
    requires Tidy(b) && b.rows == [] && b.told == {} && ValidField(b.units)
    ensures Level(Roll(b), h, wireable) <==> HoldsAll(b.units, h, wireable)
  {
    hide Roll, Bears, RemovalQueued;
    forall k: Key | wireable(k.1)
      ensures (Bears(b.units, k) ==> k in h) <==>
                && (Bears(Roll(b).units, k) ==> match LastOf(Roll(b).rows, k) case None => k in h case Some(r) => r.change.applied)
                && (RemovalQueued(Roll(b), k) ==> k in h)
    {
      RollAt(b, k);
    }
  }

  lemma NewFieldTidy(b: BattleState, env: Env)
    requires Tidy(b) && Rostered(b.units, env.stage.enemyBase)
    ensures DistinctOrders(NewField(b, env)) && Singles(NewField(b, env))
  {
    NewFieldRostered(b, env);
    OfTeamHas(b.units, TEAM_PLAYER);
    WavePlain(env.stage, b.wave + 1);
    var ps, ms := OfTeam(b.units, TEAM_PLAYER), WaveMobs(env.stage, b.wave + 1);
    forall i | 0 <= i < |NewField(b, env)| ensures OneEach(NewField(b, env)[i].statuses) {
      if i < |ps| {
        assert ps[i] in b.units;
        var k :| 0 <= k < |b.units| && b.units[k] == ps[i];
      } else {
        assert NewField(b, env)[i] == ms[i - |ps|];
      }
    }
  }

  /** The next wave opens tidy, its battle-start grants and all. */
  lemma OpenWaveTidy(b: BattleState, env: Env)
    requires Tidy(b) && Rostered(b.units, env.stage.enemyBase)
    ensures Tidy(OpenWave(b, env)) && OpenWave(b, env).rows == [] && OpenWave(b, env).told == {}
  {
    NewFieldTidy(b, env);
    IsValid(b);
    OpenWaveValid(b, env);
    OpenWaveIs(b, env);
    var us := NewField(b, env);
    var es := OpeningOf(b, env);
    LandAllMoves(us, es);
    hide NewField, LandAll, OpenWave, OpeningOf, FieldMoves;
    MovesKeepDistinct(us, LandAll(us, es), ChangesOf(Landed(us, es)));
    ResetTidy(LandAll(us, es));
  }

  lemma ResetTidy(us: seq<UnitState>)
    requires DistinctOrders(us) && Singles(us)
    ensures DistinctOrders(ResetGauges(us)) && Singles(ResetGauges(us))
  {
  }

  /** A WAVE OPENS LEVEL, exactly: the change of waves forgets what was told and reports nothing of
      what battle-start passives grant, so the client is level if and only if it holds already
      whatever the field holds once they have fired. */
  lemma WaveOpensLevel(b: BattleState, env: Env, h: Held, wireable: int -> bool)
    requires Tidy(b) && ValidField(b.units) && Rostered(b.units, env.stage.enemyBase)
    ensures Level(AdvanceWave(b, env), h, wireable) <==> HoldsAll(OpenWave(b, env).units, h, wireable)
  {
    OpenWaveTidy(b, env);
    IsValid(OpenWave(b, env));
    hide OpenWave, Roll, Tidy, HoldsAll;
    RollLevel(OpenWave(b, env), h, wireable);
  }

  /** The field a battle opens with, before its first roll. */
  ghost function Opened(s: Setup, fx: Passives): (b: BattleState)
    ensures ValidField(b.units)
  {
    OpeningValid(s, fx);
    Field0(s).(units := LandAll(Line(s, 1), fx(BattleStart, Field0(s))))
  }

  lemma OpenedTidy(s: Setup, fx: Passives)
    ensures Tidy(Opened(s, fx)) && NewBattle(s, fx) == Roll(Opened(s, fx))
    ensures Opened(s, fx).rows == [] && Opened(s, fx).told == {}
  {
    var us, es := Line(s, 1), fx(BattleStart, Field0(s));
    LineRostered(s, 1);
    WavePlain(StageOf(s), 1);
    LandAllMoves(us, es);
    hide Line, LandAll, Roll, FieldMoves;
    MovesKeepDistinct(us, LandAll(us, es), ChangesOf(Landed(us, es)));
  }

  /** A BATTLE OPENS LEVEL, exactly: the client is sent the field as its first roll left it, while
      the removals that roll queued stay queued, so it is level if and only if the roll aged off
      nothing the client knows. */
  lemma BattleOpensLevel(s: Setup, fx: Passives, h: Held, wireable: int -> bool)
    requires HoldsJust(NewBattle(s, fx).units, h, wireable)
    ensures Level(NewBattle(s, fx), h, wireable) <==>
              forall k: Key :: wireable(k.1) ==> LastChange(RollChanges(Opened(s, fx).units), k).None?
  {
    var b := Opened(s, fx);
    OpenedTidy(s, fx);
    hide Opened, Roll, NewBattle, Bears, RemovalQueued, RollChanges, Tidy;
    forall k: Key | wireable(k.1)
      ensures LastChange(RollChanges(b.units), k).None? <==>
                && (Bears(Roll(b).units, k) ==> match LastOf(Roll(b).rows, k) case None => k in h case Some(r) => r.change.applied)
                && (RemovalQueued(Roll(b), k) ==> k in h)
    {
      RollAt(b, k);
    }
  }

  /** A REJOINED BATTLE IS LEVEL, exactly: the whole field is sent and the queue stays, so if a client
      that was level drops and comes back, it is level again if and only if no removal was queued. */
  lemma RejoinLevel(b: BattleState, was: Held, h: Held, wireable: int -> bool)
    requires Level(b, was, wireable) && HoldsJust(b.units, h, wireable)
    ensures Level(b, h, wireable) <==> forall k: Key :: wireable(k.1) ==> !RemovalQueued(b, k)
  {
    hide Bears;
    forall k: Key | wireable(k.1)
      ensures !RemovalQueued(b, k) <==>
                && (Bears(b.units, k) ==> match LastOf(b.rows, k) case None => k in h case Some(r) => r.change.applied)
                && (RemovalQueued(b, k) ==> k in h)
    {
    }
  }

  // -- every battle ---------------------------------------------------------------------

  lemma ReplyTidy(b: BattleState, req: Request, env: Env)
    requires Tidy(b) && ValidField(b.units) && Rostered(b.units, env.stage.enemyBase)
    ensures Tidy(Reply(b, req, env).b)
  {
    hide Reply, AdvanceWave, OpenWave, Roll, Rostered, Tidy;
    if req.ReqNextWave? {
      NextWaveServed(b, env);
      OpenWaveTidy(b, env);
      AdvanceIs(b, env);
      RollMoves(OpenWave(b, env), Roll(OpenWave(b, env)).round);
    } else {
      ReplyAnswers(b, req, env, map[]);
      AnswerTidy(b, TurnOf(b, req, env), Reply(b, req, env), env, map[]);
    }
  }

  lemma RestoreTidy(b: BattleState, s: Setup, world: World)
    requires Reached(b, s) && WorldOf(world, s) && Tidy(b)
    ensures Fits(ToState(b, s), world) && Tidy(Restore(ToState(b, s), world))
  {
    hide Restore, Resume.Replay, Reached, Fits, ToState;
    RestoreIs(b, s, world);
    ResumeIsGood(b, s, world);
    var r := Restore(ToState(b, s), world);
    ReachedValid(r, s);
    CarriedTidy(b, r, Resume.Replay(s, world, b.wave).units);
  }

  lemma CarriedTidy(b: BattleState, r: BattleState, us: seq<UnitState>)
    requires Tidy(b) && ValidField(r.units) && |r.units| == |b.units| == |us|
    requires forall i :: 0 <= i < |b.units| ==> r.units[i] == Carried(b.units[i], us[i])
    ensures Tidy(r)
  {
    forall i | 0 <= i < |r.units| ensures r.units[i].order == b.units[i].order && r.units[i].statuses == b.units[i].statuses {
    }
  }

  /** EVERY BATTLE IS TIDY: through any requests and restarts no unit ever holds two statuses of one
      id, so what is said of changes holds in every battle that can be reached. */
  lemma {:induction false} AlwaysTidy(s: Setup, fx: Passives, evs: seq<Event>)
    requires EventsOf(evs, s)
    ensures Tidy(Live(Opening(s, fx), s, evs).b)
    decreases |evs|
  {
    hide Tidy, Serve, Restart, Reached, Opening;
    OpeningReached(s, fx);
    if evs == [] {
      OpeningTidy(s, fx);
    } else {
      var n := |evs| - 1;
      AlwaysTidy(s, fx, evs[..n]);
      LifeReached(Opening(s, fx), s, evs[..n]);
      assert EventOf(evs[n], s);
      EventTidy(Live(Opening(s, fx), s, evs[..n]), s, evs[n]);
    }
  }

  lemma OpeningTidy(s: Setup, fx: Passives)
    ensures Tidy(Opening(s, fx).b)
  {
    OpenedTidy(s, fx);
    hide Opened, Roll, NewBattle;
    RollMoves(Opened(s, fx), Roll(Opened(s, fx)).round);
  }

  lemma EventTidy(ss: Session, s: Setup, e: Event)
    requires Reached(ss.b, s) && EventOf(e, s) && Tidy(ss.b) && ValidField(ss.b.units)
    ensures e.Asked? ==> Tidy(Serve(ss, e.step).b)
    ensures e.Restarted? ==> Tidy(Restart(ss, s, e.world).b)
  {
    ReachedSound(ss.b, s);
    hide Tidy, Reached, Reply, Restore;
    match e
    case Asked(st) => ReplyTidy(ss.b, st.req, st.env);
    case Restarted(world) => RestoreTidy(ss.b, s, world);
  }

  // -- a block that runs out unsaid -----------------------------------------------------

  predicate AllOff(cs: seq<Change>) {
    forall j :: 0 <= j < |cs| ==> !cs[j].applied
  }

  lemma AllOffBoth(a: seq<Change>, b: seq<Change>)
    requires AllOff(a) && AllOff(b)
    ensures AllOff(a + b)
  {
  }

  lemma SkipOff(b: BattleState, i: nat)
    requires i < |b.units|
    ensures AllOff(SkipChanges(b, i))
  {
    hide Expired;
  }

  lemma ClockOff(us: seq<UnitState>)
    ensures AllOff(AgeRemovals(us, |us|)) && AllOff(RollChanges(us))
  {
    AgeRemoves(us, |us|);
    RollRemoves(us);
  }

  /** Nothing fires while the next turn is being settled. */
  ghost predicate Settles(fx: Passives) {
    forall m: Moment, b: BattleState :: m != AfterAction ==> fx(m, b) == []
  }

  lemma StepOff(b: BattleState, depth: nat, fx: Passives)
    requires ValidField(b.units) && Settles(fx)
    ensures AllOff(StepChanges(b, depth, fx))
  {
    hide AllOff, Roll, Tick, Fire, Skip, Immobilized, RollChanges, SkipChanges;
    NoneOff();
    if Acting(b).Some? {
      var i := Acting(b).value;
      var b1 := Tick(b, i);
      var b2 := Fire(b1, []);
      assert FireChanges(b1, []) == [];
      if !Alive(b1.units[i]) {
        ClockOff(b2.units);
        AllOffBoth([], RollChanges(b2.units));
      } else if Immobilized(b2.units[i]) {
        SkipOff(b2, i);
        ClockOff(Skip(b2, i).units);
        AllOffBoth(SkipChanges(b2, i), RollChanges(Skip(b2, i).units));
        AllOffBoth([], SkipChanges(b2, i) + RollChanges(Skip(b2, i).units));
      } else {
        AllOffBoth([], []);
      }
    }
  }

  lemma NoneOff()
    ensures AllOff([])
  {
  }

  lemma {:induction false} StartOff(b: BattleState, depth: nat, fx: Passives)
    requires ValidField(b.units) && Settles(fx)
    ensures AllOff(StartChanges(b, depth, fx))
    decreases |b.units| + 1 - depth
  {
    hide AllOff, StepChanges, StartStep, Settles;
    NoneOff();
    if depth <= |b.units| {
      var t := StartStep(b, depth, fx);
      StepOff(b, depth, fx);
      if t.Again? { StartOff(t.b, depth + 1, fx); }
      AllOffBoth(StepChanges(b, depth, fx), if t.Again? then StartChanges(t.b, depth + 1, fx) else []);
    }
  }

  /** Whatever a clock takes off, only passives put on. */
  lemma ClockChangesOff(b: BattleState, fx: Passives)
    requires ValidField(b.units) && Settles(fx)
    ensures AllOff(ClockChanges(b, fx))
  {
    var us := Acted(b, fx).units;
    ClockOff(us);
    ClockOff(AgeUnits(us));
    StartOff(Rotate(b, fx), 0, fx);
    hide AllOff, Rotate, Acted, StartChanges, RollChanges;
    AllOffBoth(AgeRemovals(us, |us|), RollChanges(AgeUnits(us)));
    AllOffBoth(AgeRemovals(us, |us|) + RollChanges(AgeUnits(us)), StartChanges(Rotate(b, fx), 0, fx));
  }

  /** A gauge block with one turn to run. */
  function Gust(id: int): Active { Active(id, Some(1), true, false, 0.0, 0, 0, {}) }

  lemma GustBears(us: seq<UnitState>, j: nat, id: int)
    requires DistinctOrders(us) && j < |us| && Alive(us[j]) && us[j].statuses == [Gust(id)]
    ensures Bears(us, (us[j].order, id)) && !Bears(AgeUnits(us), (us[j].order, id))
  {
    var k := (us[j].order, id);
    BearsAt(us, j, k);
    assert us[j].statuses[0].id == id;
    var us' := AgeUnits(us);
    assert us[j].statuses[0].blocks && us'[j].statuses == Kept([Gust(id)], true);
    SameOrdersDistinct(us, us');
    BearsAt(us', j, k);
  }

  /** Once the action is over, the block of a living unit that holds no other status runs out. */
  lemma GustEnds(b: BattleState, fx: Passives, j: nat, id: int)
    requires Tidy(b) && ValidField(b.units)
    requires var us := Acted(b, fx).units; j < |us| && Alive(us[j]) && us[j].statuses == [Gust(id)]
    ensures LastChange(ClockChanges(b, fx), (Acted(b, fx).units[j].order, id)).Some?
  {
    var us := Acted(b, fx).units;
    var k := (us[j].order, id);
    ActedMoves(b, fx);
    hide Acted, RollChanges, StartChanges, AgeRemovals;
    GustBears(us, j, id);
    AgeMoves(us);
    assert Bears(AgeUnits(us), k) == Moved(Bears(us, k), AgeRemovals(us, |us|), k);
    LastOfBoth(AgeRemovals(us, |us|), RollChanges(AgeUnits(us)), k);
    LastOfBoth(AgeRemovals(us, |us|) + RollChanges(AgeUnits(us)), StartChanges(Rotate(b, fx), 0, fx), k);
  }

  lemma {:induction false} NeverPutOn(a: seq<Change>, c: seq<Change>, k: Key)
    requires AllOff(c) && LastChange(a, k).None?
    ensures !Undone(a + c, k) && (LastChange(a + c, k).Some? ==> !LastChange(a + c, k).value.applied)
    decreases |c|
  {
    if c == [] {
      assert a + c == a;
      UndoneEnds(a, k);
    } else {
      NeverPutOn(a, c[..|c| - 1], k);
      assert (a + c)[..|a + c| - 1] == a + c[..|c| - 1];
    }
  }

  /** Its removal is then left in the queue, unless it takes back an application the turn itself
      queued and nobody was told of. */
  lemma GustQueued(b: BattleState, fx: Passives, j: nat, id: int)
    requires Tidy(b) && ValidField(b.units) && b.rows == [] && Settles(fx)
    requires var us := Acted(b, fx).units; j < |us| && Alive(us[j]) && us[j].statuses == [Gust(id)]
    requires var k := (Acted(b, fx).units[j].order, id); k in b.told || LastChange(ActionChanges(b, fx), k).None?
    ensures var k := (Acted(b, fx).units[j].order, id);
            Lingers(TurnChanges(b, fx), b.told, k) && RemovalQueued(EndTurn(b, fx), k)
  {
    var k := (Acted(b, fx).units[j].order, id);
    GustEnds(b, fx, j, id);
    ClockChangesOff(b, fx);
    EndTurnQueues(b, fx);
    hide Acted, ActionChanges, ClockChanges, EndTurn;
    var a, c := ActionChanges(b, fx), ClockChanges(b, fx);
    LastOfBoth(a, c, k);
    OnlyRemovals(c, k);
    if LastChange(a, k).None? { NeverPutOn(a, c, k); }
    QueueHolds(b.told, b.wave, a + c, k);
  }

  /** A REMOVAL THAT FINDS NOTHING: the next attack, even one that does nothing, carries to its
      client the removal of a status it does not hold. */
  lemma LingeringUnfound(w: Wave, wireable: int -> bool, k: Key)
    requires Tracks(w) && wireable(k.1) && k !in w.h && Lingers(w.gap, w.b.told, k)
    ensures !WellFormed(w.h, StatusOf(w.b, [], wireable))
  {
    AttackFinds(w, w.h, [], wireable);
    hide Tidy, Lingers, StatusOf;
    assert OnWire(ChangesOf([]), wireable) == [];
  }

  // -- a battle-start grant that nobody was told of ---------------------------------------

  /** At battle start one unit is given one status; otherwise nothing fires. */
  function GrantAt(order: nat, st: Active): Passives {
    (m: Moment, b: BattleState) => if m == BattleStart then [Grant(order, st)] else []
  }

  lemma FillableRoll(b: BattleState)
    requires ValidField(b.units) && AnyFillable(b.units)
    ensures Roll(b).units == FillUnits(b.units) && Roll(b).rows == b.rows && Roll(b).told == b.told && RollChanges(b.units) == []
  {
    FillableAlive(b.units);
    UnblockValid(b);
    hide FillUnits;
  }

  /** A quiet opening leaves everybody as built, and nothing queued. */
  lemma QuietOpening(s: Setup)
    requires s.cast != [] && s.cast[0].hp > 0
    ensures var b := NewBattle(s, Quiet());
            && Tidy(b) && ValidField(b.units) && b.rows == [] && b.told == {} && Plain(b.units) && Rostered(b.units, StageOf(s).enemyBase)
            && |b.units| > 0 && b.units[0].team == TEAM_PLAYER && Alive(b.units[0])
  {
    var b := Opened(s, Quiet());
    LinePlain(s, 1);
    OpenedTidy(s, Quiet());
    assert LandAll(Line(s, 1), []) == Line(s, 1);
    assert b.units == Line(s, 1);
    assert Line(s, 1)[0] == Party(s)[0];
    hide NewBattle, Line, Party;
    assert Alive(b.units[0]) && !Blocked(b.units[0]);
    FillableRoll(b);
    RollMoves(b, Roll(b).round);
    IsValid(Roll(b));
    NewBattleReached(s, Quiet());
    ReachedSound(NewBattle(s, Quiet()), s);
    hide Roll;
  }

  lemma GrantLands(us: seq<UnitState>, j: nat, st: Active)
    requires DistinctOrders(us) && j < |us| && us[j].statuses == []
    ensures LandAll(us, [Grant(us[j].order, st)]) == us[j := us[j].(statuses := [st])]
  {
    hide LandAll, Find;
    OneLands(us, Grant(us[j].order, st));
    FindsPosition(us, j);
    assert Put([], st) == [st];
  }

  lemma OneLands(us: seq<UnitState>, e: Effect)
    ensures LandAll(us, [e]) == Land(us, e)
  {
    hide Land;
    assert [e][..0] == [] && [e][0] == e;
    assert LandAll(us, [e][..0]) == us;
  }

  /** The first mob of the next wave enters with a block nobody was told of, and somebody else acts. */
  lemma GustWave(b: BattleState, env: Env, o: nat)
    requires Tidy(b) && ValidField(b.units) && Plain(b.units) && Rostered(b.units, env.stage.enemyBase)
    requires |b.units| > 0 && b.units[0].team == TEAM_PLAYER && Alive(b.units[0])
    requires var ms := WaveMobs(env.stage, b.wave + 1); ms != [] && Alive(ms[0]) && ms[0].order == o
    requires env.fx == GrantAt(o, Gust(7))
    ensures var b' := AdvanceWave(b, env); var j := |OfTeam(b.units, TEAM_PLAYER)|;
            && Tidy(b') && b'.rows == [] && b'.told == {}
            && j < |b'.units| && b'.units[j].order == o && Alive(b'.units[j]) && b'.units[j].statuses == [Gust(7)]
            && Acting(b').Some? && Acting(b').value != j
  {
    var ps, ms := OfTeam(b.units, TEAM_PLAYER), WaveMobs(env.stage, b.wave + 1);
    var us, j := NewField(b, env), |ps|;
    NewFieldTidy(b, env);
    WavePlain(env.stage, b.wave + 1);
    OpenWaveTidy(b, env);
    OpenWaveIs(b, env);
    assert us[j] == ms[0];
    GrantLands(us, j, Gust(7));
    var b1 := OpenWave(b, env);
    assert b1.units == ResetGauges(us[j := us[j].(statuses := [Gust(7)])]);
    HeroStands(b, env);
    GustField(us, j, b1.units);
    IsValid(b1);
    hide OpenWave, NewField, WaveMobs, OfTeam, LandAll, AdvanceWave, Roll, AnyFillable, Blocked, ResetGauges;
    TidyDistinct(b1);
    GustSeats(b1, j);
    RollMoves(b1, Roll(b1).round);
    AdvanceIs(b, env);
  }

  lemma TidyDistinct(b: BattleState)
    requires Tidy(b)
    ensures DistinctOrders(b.units)
  {
  }

  lemma GustField(us: seq<UnitState>, j: nat, us1: seq<UnitState>)
    requires j < |us| && Alive(us[j]) && us1 == ResetGauges(us[j := us[j].(statuses := [Gust(7)])])
    requires exists i :: 0 <= i < j && Alive(us[i]) && us[i].statuses == []
    ensures |us1| == |us| && AnyFillable(us1) && Blocked(us1[j])
    ensures us1[j].scv == 0.0 && Alive(us1[j]) && us1[j].statuses == [Gust(7)] && us1[j].order == us[j].order
  {
    var i :| 0 <= i < j && Alive(us[i]) && us[i].statuses == [];
    assert us1[i].statuses == [] && Alive(us1[i]) && !Blocked(us1[i]);
    assert us1[j].statuses[0].blocks;
  }

  lemma AdvanceIs(b: BattleState, env: Env)
    requires ValidField(b.units)
    ensures ValidField(OpenWave(b, env).units) && AdvanceWave(b, env) == Roll(OpenWave(b, env))
  {
    OpenWaveValid(b, env);
  }

  /** The living member of the party stands in the new field, in front of the mobs. */
  lemma HeroStands(b: BattleState, env: Env)
    requires Plain(b.units) && |b.units| > 0 && b.units[0].team == TEAM_PLAYER && Alive(b.units[0])
    ensures exists i :: 0 <= i < |OfTeam(b.units, TEAM_PLAYER)| && Alive(NewField(b, env)[i]) && NewField(b, env)[i].statuses == []
  {
    OfTeamHas(b.units, TEAM_PLAYER);
    var ps := OfTeam(b.units, TEAM_PLAYER);
    assert b.units[0] in ps;
    var i :| 0 <= i < |ps| && ps[i] == b.units[0];
    assert NewField(b, env)[i] == ps[i];
  }

  /** With somebody else free to fill, a blocked unit at an empty gauge is not seated. */
  lemma GustSeats(b: BattleState, j: nat)
    requires ValidField(b.units) && DistinctOrders(b.units) && j < |b.units|
    requires Blocked(b.units[j]) && b.units[j].scv == 0.0 && AnyFillable(b.units)
    ensures Acting(Roll(b)).Some? && Acting(Roll(b)).value != j
    ensures Roll(b).units[j] == b.units[j] && Roll(b).rows == b.rows && Roll(b).told == b.told
  {
    FillableRoll(b);
    FillableAlive(b.units);
    RollSeats(b);
    RollPublishes(b);
    var us := Roll(b).units;
    var i :| 0 <= i < |us| && us[i].order == Roll(b).turnOrder[0] && Alive(us[i]) && us[i].scv == FULL;
    hide Roll, QueueOf;
    BlockedStays(Racers(b.units), Gauges(b.units), j);
    assert us[j] == b.units[j].(scv := 0.0);
    SameOrdersDistinct(b.units, us);
    FindsPosition(us, i);
  }

  lemma BlockedStays(r: seq<Racer>, g: seq<real>, j: nat)
    requires ValidRacers(r) && j < |r| == |g| && !Mover(r, j)
    ensures Fill(r, g)[j] == g[j]
  {
  }

  /** An attack that does nothing, with nothing queued, carries no row and leaves who stands where. */
  lemma IdleTurn(b: BattleState, s: Setup, at: nat, de: nat)
    requires Tidy(b) && ValidField(b.units) && b.rows == [] && b.told == {} && Acting(b).Some?
    ensures var env := World0(s, Quiet()); var e := PlayerOf(b, at, de, 1, env);
            && e.es == [] && Sent(e, env.wireable) == [] && Acting(e.after) == Acting(b) && |e.after.units| == |b.units|
            && forall i :: 0 <= i < |b.units| ==>
                 e.after.units[i].order == b.units[i].order && e.after.units[i].hp == b.units[i].hp
                 && e.after.units[i].statuses == b.units[i].statuses
  {
    var env := World0(s, Quiet());
    var slot := SlotFor(b, at, 1);
    var b1 := SpendSkill(b, at, slot);
    SpentStands(b, at, slot);
    SpendUntouched(b, at, slot);
    IdleAttack(b1, env, at, de, slot);
    hide SpendSkill, SlotFor;
    NothingSent(b1, env.wireable);
  }

  lemma NothingSent(b: BattleState, wireable: int -> bool)
    requires b.rows == []
    ensures StatusOf(b, Landed(b.units, []), wireable) == []
  {
  }

  /** What the first turn of such a wave leaves in the queue. */
  lemma GustTurn(b: BattleState, s: Setup, j: nat, at: nat, de: nat)
    requires Tidy(b) && ValidField(b.units) && b.rows == [] && b.told == {} && Acting(b).Some? && Acting(b).value != j
    requires j < |b.units| && Alive(b.units[j]) && b.units[j].statuses == [Gust(7)]
    ensures var e := PlayerOf(b, at, de, 1, World0(s, Quiet()));
            Tidy(e.after) && ValidField(e.after.units) && Lingers(TurnChanges(e.after, Quiet()), {}, (b.units[j].order, 7))
  {
    var env := World0(s, Quiet());
    var e := PlayerOf(b, at, de, 1, env);
    IdleTurn(b, s, at, de);
    PlayerAnswers(b, at, de, 1, env, map[]);
    hide PlayerOf, PlayerAttack, EndTurn, FieldMoves;
    assert e.after.rows == [] && e.after.told == {};
    var i := Acting(e.after).value;
    FinishCalm(e.after, i, Quiet());
    assert Acted(e.after, Quiet()).units[j] == e.after.units[j];
    assert ActionChanges(e.after, Quiet()) == [];
    GustQueued(e.after, Quiet(), j, 7);
  }

  /** A BATTLE-START GRANT STOPS THE FIGHT: in every battle with a living first member and a mob to
      open the second wave, a session in which that mob enters with a block of one turn: the change
      of waves, one attack that does nothing, and the next attack removes from the client a status
      it was never told of. */
  lemma GrantBreaks(s: Setup)
    requires s.cast != [] && s.cast[0].hp > 0
    requires WaveMobs(StageOf(s), 2) != [] && Alive(WaveMobs(StageOf(s), 2)[0])
    ensures var gust := World0(s, GrantAt(WaveMobs(StageOf(s), 2)[0].order, Gust(7)));
            var w := Wave(AdvanceWave(NewBattle(s, Quiet()), gust), map[], []);
            var t := Beat(ReqAttack(101, 101, 1), World0(s, Quiet()), {});
            && HoldsJust(NewBattle(s, Quiet()).units, map[], t.env.wireable)
            && Reply(NewBattle(s, Quiet()), ReqNextWave, gust).b == w.b
            && Tracks(w) && !Finds(Serve1(w, t), t, t.env.wireable)
  {
    var b := NewBattle(s, Quiet());
    var o := WaveMobs(StageOf(s), 2)[0].order;
    var gust := World0(s, GrantAt(o, Gust(7)));
    QuietOpening(s);
    OpensFirst(s, Quiet());
    NextWaveServed(b, gust);
    PlainHolds(b.units);
    hide NewBattle, WaveMobs, Reply, AdvanceWave, HoldsJust, Plain, Tidy;
    GustWave(b, gust, o);
    GustBattle(AdvanceWave(b, gust), s, |OfTeam(b.units, TEAM_PLAYER)|);
  }

  lemma PlainHolds(us: seq<UnitState>)
    requires Plain(us)
    ensures forall wireable: int -> bool :: HoldsJust(us, map[], wireable)
  {
  }

  lemma GustBattle(b: BattleState, s: Setup, j: nat)
    requires Tidy(b) && ValidField(b.units) && b.rows == [] && b.told == {} && Acting(b).Some? && Acting(b).value != j
    requires j < |b.units| && Alive(b.units[j]) && b.units[j].statuses == [Gust(7)]
    ensures var t := Beat(ReqAttack(101, 101, 1), World0(s, Quiet()), {}); var w := Wave(b, map[], []);
            Tracks(w) && !Finds(Serve1(w, t), t, t.env.wireable)
  {
    var t := Beat(ReqAttack(101, 101, 1), World0(s, Quiet()), {});
    var w' := Serve1(Wave(b, map[], []), t);
    StartsTracked(b);
    FirstServed(b, s, j, t);
    hide Tidy, Reply, Serve1, Lingers, Tracks, StatusOf, TurnOf, Find, Acting, Sent;
    LingeringUnfound(w', t.env.wireable, (b.units[j].order, 7));
    TracksTidy(w');
    SecondAttack(w', s, t);
  }

  lemma FirstServed(b: BattleState, s: Setup, j: nat, t: Beat)
    requires Tidy(b) && ValidField(b.units) && b.rows == [] && b.told == {} && Acting(b).Some? && Acting(b).value != j
    requires j < |b.units| && Alive(b.units[j]) && b.units[j].statuses == [Gust(7)]
    requires t == Beat(ReqAttack(101, 101, 1), World0(s, Quiet()), {})
    ensures var w' := Serve1(Wave(b, map[], []), t);
            Tracks(w') && w'.h == map[] && Lingers(w'.gap, w'.b.told, (b.units[j].order, 7))
  {
    hide TurnOf, PlayerOf, Reply, Serve1, TurnChanges, Lingers, Tracks, Sent, Tidy, Find, Acting;
    var w := Wave(b, map[], []);
    StartsTracked(b);
    GustTurn(b, s, j, 101, 101);
    IdleTurn(b, s, 101, 101);
    AttackTurn(b, t.env);
    RowlessServed(w, t, PlayerOf(b, 101, 101, 1, t.env));
  }

  lemma AttackTurn(b: BattleState, env: Env)
    ensures TurnOf(b, ReqAttack(101, 101, 1), env) == Some(PlayerOf(b, 101, 101, 1, env))
  {
    hide PlayerOf;
  }

  /** An attack that carries no row tells nothing and loses nothing. */
  lemma RowlessServed(w: Wave, t: Beat, e: Ending)
    requires Tracks(w) && ValidField(w.b.units) && !t.req.ReqNextWave? && t.fades == {}
    requires TurnOf(w.b, t.req, t.env) == Some(e) && Sent(e, t.env.wireable) == [] && ValidField(e.after.units)
    ensures var w' := Serve1(w, t);
            Tracks(w') && w'.h == w.h && w'.gap == TurnChanges(e.after, t.env.fx) && w'.b.told == w.b.told
  {
    hide TurnOf, Serve1, TurnChanges, Tracks, Sent, Ends, Untouched;
    TurnServed(w, t);
  }

  lemma StartsTracked(b: BattleState)
    requires Tidy(b) && b.rows == []
    ensures Tracks(Wave(b, map[], []))
  {
  }

  /** A further attack that does nothing carries just the queue. */
  lemma SecondAttack(w: Wave, s: Setup, t: Beat)
    requires Tidy(w.b) && ValidField(w.b.units) && t == Beat(ReqAttack(101, 101, 1), World0(s, Quiet()), {})
    ensures var e := TurnOf(w.b, t.req, t.env); e.Some? && Sent(e.value, t.env.wireable) == StatusOf(w.b, [], t.env.wireable)
  {
    var slot := SlotFor(w.b, 101, 1);
    SpendUntouched(w.b, 101, slot);
    hide SpendSkill, SlotFor, ResolveSkill;
  }

  // -- told, counted out, and told no more --------------------------------------------------

  /** A status with one turn to run that stops nothing. */
  function Brief(id: int): Active { Active(id, Some(1), false, false, 0.0, 0, 0, {}) }

  lemma {:induction false} GoneOnce(before: bool, a: seq<Change>, c: seq<Change>, k: Key)
    requires Borne(before, a + c, k) && !Moved(before, a, k) && AllOff(c)
    ensures LastChange(c, k).None?
    decreases |c|
  {
    if c != [] {
      var n := |c| - 1;
      BorneBoth(before, a, c, k);
      BorneBoth(before, a, c[..n], k);
      GoneOnce(before, a, c[..n], k);
      BorneBoth(Moved(before, a, k), c[..n], [c[n]], k);
      assert c == c[..n] + [c[n]];
      assert Moved(Moved(before, a, k), c[..n], k) == Moved(before, a, k);
    }
  }

  /** THE RECORD OUTLIVES THE STATUS: an actor's own status that ends with its turn is gone from the
      field and named by no row, for the client counts it out by itself; but it stays on record as
      told. */
  lemma ToldOutlives(b: BattleState, i: nat, id: int, fx: Passives)
    requires Tidy(b) && ValidField(b.units) && b.rows == [] && Acting(b) == Some(i) && b.units[i].statuses == [Brief(id)] && Silent(fx)
    ensures var b' := EndTurn(b, fx); var k := (b.units[i].order, id);
            !Bears(b'.units, k) && LastOf(b'.rows, k).None? && b'.told == b.told
  {
    var k := (b.units[i].order, id);
    EndTurnQueues(b, fx);
    TurnTells(b, fx, k);
    ClockChangesOff(b, fx);
    SilentActs(b, i, id, fx);
    var a, lapses, c := ActionChanges(b, fx), OwnLapses(b, fx), ClockChanges(b, fx);
    hide EndTurn, ActionChanges, OwnLapses, ClockChanges, Bears;
    assert a + lapses == lapses;
    assert [lapses[0]] == lapses;
    OneChange(Bears(b.units, k), lapses[0], k);
    GoneOnce(Bears(b.units, k), lapses, c, k);
    LastOfBoth(lapses, c, k);
    assert a + c == c;
    QueueHolds(b.told, b.wave, c, k);
  }

  lemma SilentActs(b: BattleState, i: nat, id: int, fx: Passives)
    requires Acting(b) == Some(i) && b.units[i].statuses == [Brief(id)] && Silent(fx)
    ensures ActionChanges(b, fx) == [] && OwnLapses(b, fx) == [Change(b.units[i].order, id, false, None)]
  {
    var b1 := Spent1(b, i);
    SilentFire(b1);
    assert FireChanges(b1, []) == [];
    assert Expired([Brief(id)], false) == [Brief(id).(remaining := Some(0))];
  }

  /** After the action one unit is given one status; otherwise nothing fires. */
  function GrantAfter(order: nat, st: Active): Passives {
    (m: Moment, b: BattleState) => if m == AfterAction then [Grant(order, st)] else []
  }

  /** STALE RECORD: a status that is on record as told, but that the client has counted out, is given
      again as a block and runs out in the same turn. Its removal is not taken back, as an untold
      one's would be, and the next attack removes what the client does not hold. */
  lemma StaleRecordBreaks(b: BattleState, h: Held, j: nat, fx: Passives, wireable: int -> bool)
    requires Tidy(b) && ValidField(b.units) && b.rows == [] && Acting(b).Some? && Acting(b).value != j
    requires j < |b.units| && Alive(b.units[j]) && b.units[j].statuses == [] && fx == GrantAfter(b.units[j].order, Gust(7))
    requires var k := (b.units[j].order, 7); k in b.told && k !in h && wireable(7)
    ensures var w := Wave(EndTurn(b, fx), h, TurnChanges(b, fx));
            Tracks(w) && !WellFormed(h, StatusOf(w.b, [], wireable))
  {
    var i := Acting(b).value;
    GrantedActed(b, i, j, fx);
    GustQueued(b, fx, j, 7);
    EndTurnQueues(b, fx);
    ClockMovesOn(b, fx);
    hide EndTurn, TurnChanges, Acted, Tidy;
    LingeringUnfound(Wave(EndTurn(b, fx), h, TurnChanges(b, fx)), wireable, (b.units[j].order, 7));
  }

  lemma GrantedActed(b: BattleState, i: nat, j: nat, fx: Passives)
    requires DistinctOrders(b.units) && Acting(b) == Some(i) && i != j && j < |b.units|
    requires b.units[j].statuses == [] && fx == GrantAfter(b.units[j].order, Gust(7))
    ensures |Acted(b, fx).units| == |b.units| && Acted(b, fx).units[j] == b.units[j].(statuses := [Gust(7)])
  {
    var b1 := Spent1(b, i);
    SameOrdersDistinct(b.units, b1.units);
    GrantLands(b1.units, j, Gust(7));
    hide LandAll;
  }
}
