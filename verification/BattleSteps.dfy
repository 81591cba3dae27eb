/** The battle's methods, one step at a time, on values: what each loop has done after `n` of
    its passes, and the loops that touch no object. */
module BattleSteps {
  import opened Wrappers
  import opened GaugeRace
  import opened RaceRun
  import opened Projection
  import opened Units
  import opened StatusRows
  import opened TurnQueue
  import opened Turns
  import opened Outbound
  import opened Replies
  import opened Reach
  import opened Resume

  // -- the projection's loop --------------------------------------------------------

  lemma PassStep(r: seq<Racer>, g: seq<real>, p: nat)
    requires ValidRacers(r) && ValidGauges(r, g)
    ensures var s := After(r, g, p);
            && ValidGauges(r, Settle(r, s.g))
            && match Next(r, s.g)
               case None => After(r, g, p + 1) == s
               case Some(i) => After(r, g, p + 1).g == Settle(r, s.g)[i := 0.0] && After(r, g, p + 1).picks == s.picks + [i]
  {
    SettleValid(r, After(r, g, p).g);
    assert After(r, g, p + 1) == Pass(r, After(r, g, p));
    hide Settle, Next;
  }

  lemma QueueGrows(r: seq<Racer>, g: seq<real>, p: nat)
    requires ValidRacers(r) && ValidGauges(r, g)
    ensures var n := Next(r, After(r, g, p).g); var q := Queue(r, g, p);
            Queue(r, g, p + 1) == if n.None? || n.value in q then q else q + [n.value]
  {
    QueueStep(r, g, p);
  }

  lemma QueueStart(r: seq<Racer>, g: seq<real>)
    requires ValidRacers(r) && ValidGauges(r, g)
    ensures After(r, g, 0).g == g && Queue(r, g, 0) == []
  {
  }

  lemma StalledQueueStays(r: seq<Racer>, g: seq<real>, p: nat, k: nat)
    requires ValidRacers(r) && ValidGauges(r, g) && !SomeoneFull(r, After(r, g, p).g) && !SomeoneMoves(r)
    ensures Queue(r, g, p + k) == Queue(r, g, p)
  {
    NextIsFull(r, After(r, g, p).g);
    StalledStays(r, g, p, k);
  }

  /** The loop that publishes the queue: it runs a copy of the gauges for as many passes as the
      budget allows, and stops early once everybody is in or nobody can fill. */
  method ProjectQueue(r: seq<Racer>, g: seq<real>) returns (queue: seq<nat>)
    requires ValidRacers(r) && ValidGauges(r, g)
    ensures queue == Published(r, g)
  {
    hide Settle, Next, Advance, FullMask, Best, Pass, SomeoneFull, SomeoneMoves, Queue;
    QueueStart(r, g);
    var n := LiveCount(r);
    var sim := g;
    queue := [];
    var p := 0;
    while p < Budget(r)
      invariant 0 <= p <= Budget(r)
      invariant sim == After(r, g, p).g && queue == Queue(r, g, p)
    {
      if |queue| == n {
        FullQueueStays(r, g, p, Budget(r) - p);
        return;
      }
      PassStep(r, g, p);
      QueueGrows(r, g, p);
      if !SomeoneFull(r, sim) {
        if !SomeoneMoves(r) {
          StalledQueueStays(r, g, p, Budget(r) - p);
          return;
        }
        SettlesByGap(r, sim);
        sim := Advance(r, sim, LeastGap(r, sim, |r|).value);
      } else {
        SettlesAtOnce(r, sim);
      }
      SomeoneNext(r, After(r, g, p).g);
      var next := Best(r, FullMask(r, sim), |r|).value;
      sim := sim[next := 0.0];
      if next !in queue { queue := queue + [next]; }
      p := p + 1;
    }
  }

  lemma SettlesByGap(r: seq<Racer>, g: seq<real>)
    requires ValidRacers(r) && ValidGauges(r, g) && !SomeoneFull(r, g) && SomeoneMoves(r)
    ensures LeastGap(r, g, |r|).Some? && Settle(r, g) == Advance(r, g, LeastGap(r, g, |r|).value)
  {
  }

  lemma SettlesAtOnce(r: seq<Racer>, g: seq<real>)
    requires ValidRacers(r) && ValidGauges(r, g) && SomeoneFull(r, g)
    ensures Settle(r, g) == g
  {
  }

  lemma SomeoneNext(r: seq<Racer>, g: seq<real>)
    requires ValidRacers(r) && ValidGauges(r, g) && (SomeoneFull(r, g) || SomeoneMoves(r))
    ensures Next(r, g).Some? && Best(r, FullMask(r, Settle(r, g)), |r|) == Next(r, g)
  {
    NextIsFull(r, g);
  }

  // -- the drain's loop -------------------------------------------------------------

  /** How much of a limit is left. */
  function Left(limit: Option<nat>, used: nat): Option<nat> {
    if limit.Some? && limit.value >= used then Some(limit.value - used) else limit
  }

  /** A drain of which `sent` has been taken from the rows before `i`. */
  function Walked(b: BattleState, ds: seq<DeathRow>, i: nat, sent: seq<DeathRow>, limit: Option<nat>): Drained
    requires i <= |ds|
  {
    var w := Walk(b, ds[i..], Left(limit, |sent|));
    w.(sent := sent + w.sent)
  }

  lemma WalkedEnds(b: BattleState, ds: seq<DeathRow>, sent: seq<DeathRow>, limit: Option<nat>)
    ensures Walked(b, ds, |ds|, sent, limit).sent == sent && Walked(b, ds, |ds|, sent, limit).kept == []
  {
  }

  lemma WalkedStep(b: BattleState, ds: seq<DeathRow>, i: nat, sent: seq<DeathRow>, limit: Option<nat>)
    requires i < |ds| && (limit.Some? ==> |sent| <= limit.value)
    ensures var w := Walked(b, ds, i, sent, limit);
            if limit == Some(|sent|) then w.sent == sent && w.kept == ds[i..]
            else
              var w' := Walked(b, ds, i + 1, if Deliverable(b, ds[i]) then sent + [ds[i]] else sent, limit);
              w'.sent == w.sent && w'.kept == w.kept
  {
    hide Deliverable;
    assert ds[i..][0] == ds[i] && ds[i..][1..] == ds[i + 1..];
    if limit != Some(|sent|) {
      var w := Walk(b, ds[i + 1..], Left(limit, |sent| + if Deliverable(b, ds[i]) then 1 else 0));
      assert (sent + [ds[i]]) + w.sent == sent + ([ds[i]] + w.sent);
    }
  }

  /** Walk the queued losses until the limit is reached: rows to send, and rows to hold back. */
  method TakeRows(b: BattleState, ds: seq<DeathRow>, limit: Option<nat>) returns (sent: seq<DeathRow>, held: seq<DeathRow>)
    ensures sent == Walk(b, ds, limit).sent && held == Walk(b, ds, limit).kept
  {
    hide Deliverable, Walked;
    sent := [];
    WalkedStart(b, ds, limit);
    for i := 0 to |ds|
      invariant limit.Some? ==> |sent| <= limit.value
      invariant Walked(b, ds, i, sent, limit).sent == Walk(b, ds, limit).sent
      invariant Walked(b, ds, i, sent, limit).kept == Walk(b, ds, limit).kept
    {
      WalkedStep(b, ds, i, sent, limit);
      if limit.Some? && |sent| >= limit.value { return sent, ds[i..]; }
      if Deliverable(b, ds[i]) { sent := sent + [ds[i]]; }
    }
    WalkedEnds(b, ds, sent, limit);
    held := [];
  }

  lemma WalkedStart(b: BattleState, ds: seq<DeathRow>, limit: Option<nat>)
    ensures Walked(b, ds, 0, [], limit) == Walk(b, ds, limit)
  {
    assert ds[0..] == ds;
  }

  // -- waves, and what an attack carries --------------------------------------------

  lemma BankStep(totals: map<nat, Total>, us: seq<UnitState>, u: UnitState)
    ensures BankAll(totals, us + [u]) == BankOne(BankAll(totals, us), u)
  {
    assert (us + [u])[..|us|] == us;
  }

  lemma SpawnKeepsValid(b: BattleState, stage: Stage)
    requires ValidField(b.units)
    ensures ValidField(Replies.SpawnWave(b, stage).units)
  {
    WaveMobsValid(stage, b.wave);
  }

  /** The queued status rows an attack may carry. */
  method RowsOnWire(rows: seq<Row>, wave: nat, wireable: int -> bool) returns (queued: seq<Change>)
    ensures queued == OnWire(OfWave(rows, wave), wireable)
  {
    queued := [];
    for n := 0 to |rows|
      invariant queued == OnWire(OfWave(rows[..n], wave), wireable)
    {
      OnWireStep(rows, n, wave, wireable);
      if rows[n].wave == wave && wireable(rows[n].change.id) { queued := queued + [rows[n].change]; }
    }
    assert rows[..|rows|] == rows;
  }

  lemma SwapKeepsValid(b: BattleState, incoming: nat, outgoing: nat)
    requires ValidField(b.units)
    ensures Replies.SwapUnits(b, incoming, outgoing).Some? ==> ValidField(Replies.SwapUnits(b, incoming, outgoing).value.units)
  {
  }

  lemma OnWireStep(rows: seq<Row>, n: nat, wave: nat, wireable: int -> bool)
    requires n < |rows|
    ensures OnWire(OfWave(rows[..n + 1], wave), wireable) ==
              OnWire(OfWave(rows[..n], wave), wireable)
              + if rows[n].wave == wave && wireable(rows[n].change.id) then [rows[n].change] else []
  {
    assert rows[..n + 1][..n] == rows[..n];
    var cs := OfWave(rows[..n], wave);
    if rows[n].wave == wave {
      assert OfWave(rows[..n + 1], wave) == cs + [rows[n].change];
      assert (cs + [rows[n].change])[..|cs|] == cs;
    } else {
      assert OfWave(rows[..n + 1], wave) == cs;
    }
  }

  // -- absorbing, effect by effect --------------------------------------------------

  function KillOf(before: seq<UnitState>, after: seq<UnitState>, wave: nat, e: Effect): seq<DeathRow> {
    if e.Strike? && e.amount > 0 && Dead(after, e.target) then
      var had := Find(before, e.target);
      [DeathRow(e.target, if had.Some? && before[had.value].hp < e.amount then before[had.value].hp else e.amount, wave, true)]
    else []
  }

  /** The battle with the kills among these effects queued. */
  function Killed(b: BattleState, before: seq<UnitState>, done: seq<Effect>): BattleState {
    b.(deaths := b.deaths + KillRows(before, b.units, b.wave, done))
  }

  function Absorbed(b: BattleState, before: seq<UnitState>, done: seq<Effect>): BattleState {
    Killed(b, before, done).(rows := QueueAll(b.rows, b.told, b.wave, ChangesOf(done)))
  }

  lemma AbsorbedNone(b: BattleState, before: seq<UnitState>)
    ensures Killed(b, before, []) == b
  {
  }

  lemma AbsorbedStep(b: BattleState, before: seq<UnitState>, done: seq<Effect>, n: nat)
    requires n < |done|
    ensures ChangesOf(done[..n + 1]) == ChangesOf(done[..n]) + ChangeOf(done[n])
    ensures var b1 := Killed(b, before, done[..n]);
            Killed(b, before, done[..n + 1]) == b1.(deaths := b1.deaths + KillOf(before, b1.units, b1.wave, done[n]))
  {
    assert done[..n + 1][..n] == done[..n];
    hide Dead;
  }

  lemma AbsorbedAll(b: BattleState, before: seq<UnitState>, done: seq<Effect>)
    ensures Absorbed(b, before, done) ==
              var b1 := Killed(b, before, done); b1.(rows := QueueAll(b1.rows, b1.told, b1.wave, ChangesOf(done)))
  {
  }

  lemma FireIsAbsorbed(b: BattleState, es: seq<Effect>)
    ensures Fire(b, es) == Absorbed(b.(units := LandAll(b.units, es)), b.units, Landed(b.units, es))
  {
  }

  // -- ticks and turns --------------------------------------------------------------

  /** The tick, loss by loss. */
  lemma TickSteps(b: BattleState, i: nat)
    requires i < |b.units|
    ensures var u := b.units[i]; var u' := TickHp(u); var dot := DotOf(u.statuses);
            var b1 := b.(units := b.units[i := u']);
            var b2 := if dot > 0 && u'.hp > 0 then b1.(deaths := b1.deaths + [DeathRow(u.order, TickDealt(u), b.wave, false)]) else b1;
            var b3 := if u'.hp == 0 then b2.(deaths := b2.deaths + [DeathRow(u.order, TickDealt(u), b.wave, true)]) else b2;
            Tick(b, i) == b3 && u'.order == u.order
  {
  }

  lemma TickKeepsValid(b: BattleState, i: nat)
    requires ValidField(b.units) && i < |b.units|
    ensures ValidField(Tick(b, i).units)
  {
  }

  lemma SkipKeepsValid(b: BattleState, i: nat)
    requires ValidField(b.units) && i < |b.units|
    ensures ValidField(Skip(b, i).units)
  {
  }

  lemma FinishSteps(b: BattleState, i: nat)
    requires ValidField(b.units) && i < |b.units|
    ensures ValidField(b.units[i := SpendGauge(TickCooldowns(b.units[i]))])
  {
  }

  // -- resuming ---------------------------------------------------------------------

  function PatchOne(us: seq<UnitState>, sv: SavedUnit): (us': seq<UnitState>)
    ensures |us'| == |us|
  {
    match Find(us, sv.order)
    case None => us
    case Some(i) => us[i := Patched(us[i], sv)]
  }

  lemma PatchStep(us: seq<UnitState>, svs: seq<SavedUnit>, n: nat)
    requires n < |svs|
    ensures PatchAll(us, svs[..n + 1]) == PatchOne(PatchAll(us, svs[..n]), svs[n])
  {
    assert svs[..n + 1][..n] == svs[..n];
  }

  function PatchedBattle(b: BattleState, sv: Saved): BattleState {
    var us := PatchAll(b.units, sv.units);
    b.(round := sv.round, damageSum := sv.damageSum, auto := sv.auto, totals := sv.totals, units := us, turnOrder := OnField(us, sv.turnOrder))
  }

  // -- a new battle -----------------------------------------------------------------

  /** A battle with nobody on the field yet. */
  function Bare(s: Setup): BattleState {
    BattleState([], [], 1, Waves(s), 1, 0, [], [], {}, map[], false, false, false, s.tell)
  }

  lemma BareField(s: Setup)
    ensures Replies.SpawnWave(Bare(s).(units := Party(s)), StageOf(s)) == Field0(s)
    ensures Field0(s).units == Line(s, 1)
  {
    OfOneTeam(Party(s), TEAM_PLAYER, TEAM_PLAYER);
    OfOneTeam(Party(s), TEAM_PLAYER, TEAM_ENEMY);
  }

  lemma BuildsValid(s: Setup)
    ensures ValidField(Party(s))
  {
  }

  // -- opening a wave, step by step -------------------------------------------------

  function ResetTo(us: seq<UnitState>, n: nat): (us': seq<UnitState>)
    requires n <= |us|
    ensures |us'| == |us|
  {
    seq(|us|, k requires 0 <= k < |us| => if k < n then us[k].(scv := 0.0, pendingScv := 0.0) else us[k])
  }

  lemma ResetStep(us: seq<UnitState>, n: nat)
    requires n < |us|
    ensures ResetTo(us, n + 1) == ResetTo(us, n)[n := ResetTo(us, n)[n].(scv := 0.0, pendingScv := 0.0)]
  {
  }

  lemma ResetEnds(us: seq<UnitState>)
    ensures ResetTo(us, 0) == us && ResetTo(us, |us|) == ResetGauges(us)
  {
  }

  lemma {:induction false} UnblockFlagged(b: BattleState)
    ensures Unblock(b.(waveBegun := false, turnOpen := false)) == Unblock(b).(waveBegun := false, turnOpen := false)
    decreases FieldBlockTurns(b.units)
  {
    if AnyAlive(b.units) && !AnyFillable(b.units) && AgesSomething(b.units) {
      AgeShrinks(b.units);
      UnblockFlagged(AgeBlocks(b));
    }
  }

  lemma RollFlagged(b: BattleState)
    requires ValidField(b.units)
    ensures Roll(b.(waveBegun := false, turnOpen := false)) == Roll(b).(waveBegun := false, turnOpen := false)
  {
    UnblockFlagged(b);
    UnblockValid(b);
    hide QueueOf, FillUnits;
  }

  lemma ResetValid(us: seq<UnitState>)
    requires ValidField(us)
    ensures ValidField(ResetGauges(us))
  {
  }

  function Entered(b: BattleState, stage: Stage): BattleState {
    Replies.SpawnWave(b.(wave := b.wave + 1, rows := [], deaths := [], told := {}), stage)
  }

  function Started(b: BattleState, fx: Passives): BattleState {
    b.(units := ResetGauges(LandAll(b.units, fx(BattleStart, b))))
  }

  function OpenedField(b: BattleState, env: Env): BattleState {
    Started(Entered(b, env.stage), env.fx)
  }

  lemma OpenedFieldValid(b: BattleState, env: Env)
    requires ValidField(b.units)
    ensures ValidField(OpenedField(b, env).units)
  {
    hide LandAll, ResetGauges, Replies.SpawnWave, ValidField;
    var b0 := b.(wave := b.wave + 1, rows := [], deaths := [], told := {});
    SpawnKeepsValid(b0, env.stage);
    var b1 := Replies.SpawnWave(b0, env.stage);
    LandAllValid(b1.units, env.fx(BattleStart, b1));
    ResetValid(LandAll(b1.units, env.fx(BattleStart, b1)));
  }

  /** The flags may come down before the roll or after it. */
  lemma OpenedFieldRolls(b: BattleState, env: Env)
    requires ValidField(b.units) && ValidField(OpenedField(b, env).units)
    ensures Roll(OpenedField(b, env)).(waveBegun := false, turnOpen := false) == Replies.AdvanceWave(b, env)
  {
    RollFlagged(OpenedField(b, env));
    hide Roll, LandAll, ResetGauges;
  }

  // -- filling, unit by unit --------------------------------------------------------

  function Filled(u: UnitState, t: real): UnitState {
    if Alive(u) && !Blocked(u) then u.(scv := Min(FULL, u.scv + t * EffectiveSpd(u))) else u
  }

  function FilledTo(us: seq<UnitState>, n: nat, t: real): (us': seq<UnitState>)
    requires n <= |us|
    ensures |us'| == |us|
  {
    seq(|us|, k requires 0 <= k < |us| => if k < n then Filled(us[k], t) else us[k])
  }

  lemma FilledStep(us: seq<UnitState>, n: nat, t: real)
    requires n < |us|
    ensures FilledTo(us, n, t)[n := Filled(FilledTo(us, n, t)[n], t)] == FilledTo(us, n + 1, t)
  {
  }

  function StepOf(us: seq<UnitState>): Option<real> {
    LeastGap(Racers(us), Gauges(us), |us|)
  }

  lemma FillsOne(us: seq<UnitState>, k: nat, t: real)
    requires k < |us|
    ensures us[k].(scv := Advance(Racers(us), Gauges(us), t)[k]) == Filled(us[k], t)
  {
  }

  lemma FilledNone(us: seq<UnitState>, t: real)
    ensures FilledTo(us, 0, t) == us
  {
  }

  lemma FilledEnds(us: seq<UnitState>, t: real)
    ensures StepOf(us) == Some(t) && t > 0.0 ==> FilledTo(us, |us|, t) == FillUnits(us)
  {
    if StepOf(us) == Some(t) && t > 0.0 {
      assert Fill(Racers(us), Gauges(us)) == Advance(Racers(us), Gauges(us), t);
      hide Fill, Advance, Filled, LeastGap;
      forall k | 0 <= k < |us| ensures FillUnits(us)[k] == FilledTo(us, |us|, t)[k] {
        FillsOne(us, k, t);
      }
    }
  }

  lemma FillUnitsIs(us: seq<UnitState>)
    ensures var t := StepOf(us);
            (t.None? || t.value <= 0.0 ==> FillUnits(us) == us) && (t.Some? ==> AnyFillable(us))
  {
    FillableMoves(us);
  }

  function LeadOf(us: seq<UnitState>): (i: nat)
    requires SomeoneMoves(Racers(us))
    ensures i < |us|
  {
    Lead(Racers(us), Gauges(us))
  }

  function NearestMask(r: seq<Racer>, g: seq<real>): (c: seq<bool>)
    requires ValidRacers(r) && |g| == |r| && SomeoneMoves(r)
    ensures |c| == |r| && exists i :: 0 <= i < |r| && c[i]
  {
    var t := LeastGap(r, g, |r|).value;
    var c := seq(|r|, i requires 0 <= i < |r| => Mover(r, i) && Remaining(r, g, i) == t);
    NearestExists(r, g, c);
    c
  }

  lemma NearestExists(r: seq<Racer>, g: seq<real>, c: seq<bool>)
    requires ValidRacers(r) && |g| == |r| == |c| && LeastGap(r, g, |r|).Some?
    requires forall i :: 0 <= i < |r| ==> c[i] == (Mover(r, i) && Remaining(r, g, i) == LeastGap(r, g, |r|).value)
    ensures exists i :: 0 <= i < |r| && c[i]
  {
    var i :| 0 <= i < |r| && Mover(r, i) && LeastGap(r, g, |r|).value == Remaining(r, g, i);
    assert c[i];
  }

  /** Whoever is nearest to a full gauge, the best-ranked of them. */
  function Lead(r: seq<Racer>, g: seq<real>): (i: nat)
    requires ValidRacers(r) && |g| == |r| && SomeoneMoves(r)
    ensures i < |r|
  {
    Best(r, NearestMask(r, g), |r|).value
  }

  lemma LeadIsNearest(r: seq<Racer>, g: seq<real>, m: nat)
    requires ValidRacers(r) && |g| == |r| && m < |r| && Mover(r, m)
    ensures Remaining(r, g, Lead(r, g)) <= Remaining(r, g, m)
  {
    hide Remaining;
    assert NearestMask(r, g)[Lead(r, g)];
  }

  lemma NearestIsFull(g: real, spd: real)
    requires 0.0 <= g <= FULL && spd >= 1.0
    ensures (FULL - g) / spd <= 0.0 <==> g == FULL
  {
    DivLe(0.0, FULL - g, spd);
  }

  /** In exact arithmetic the leader is full already: the guard against rounding is idle. */
  lemma LeadIsFull(us: seq<UnitState>)
    requires ValidField(us) && AnyFillable(us)
    ensures SomeoneMoves(Racers(FillUnits(us)))
    ensures var l := LeadOf(FillUnits(us));
            FillUnits(us)[l].scv == FULL && FillUnits(us)[l := FillUnits(us)[l].(scv := FULL)] == FillUnits(us)
  {
    hide Lead, Fill, FillUnits, ValidField, AnyFillable, SomeoneMoves;
    var r, g := Racers(us), Gauges(us);
    FillableMoves(us);
    FilledAs(us);
    LeadOfFilled(r, g);
    FillValid(r, g);
    GaugeStays(FillUnits(us), LeadOf(FillUnits(us)));
  }

  lemma FilledAs(us: seq<UnitState>)
    requires ValidField(us)
    ensures Racers(FillUnits(us)) == Racers(us) && Gauges(FillUnits(us)) == Fill(Racers(us), Gauges(us))
  {
    GaugesLeaveRacers(us, Fill(Racers(us), Gauges(us)));
  }

  lemma LeadOfFilled(r: seq<Racer>, g: seq<real>)
    requires ValidRacers(r) && ValidGauges(r, g) && SomeoneMoves(r)
    ensures Fill(r, g)[Lead(r, Fill(r, g))] == FULL
  {
    FillFills(r, g);
    FillValid(r, g);
    var g' := Fill(r, g);
    hide Lead, Fill;
    var m :| 0 <= m < |r| && Mover(r, m) && g'[m] == FULL;
    var l := Lead(r, g');
    LeadIsNearest(r, g', m);
    NearestIsFull(g'[m], r[m].spd);
    NearestIsFull(g'[l], r[l].spd);
  }

  lemma GaugeStays(us: seq<UnitState>, l: nat)
    requires l < |us| && Gauges(us)[l] == FULL
    ensures us[l].scv == FULL && us[l := us[l].(scv := FULL)] == us
  {
  }

  lemma NothingAges(b: BattleState)
    ensures !AgesSomething(b.units) ==> AgeBlocks(b) == b
  {
    if !AgesSomething(b.units) {
      forall i | 0 <= i < |b.units| ensures AgeUnit(b.units[i]) == b.units[i] {
        AgeUnitShrinks(b.units[i]);
      }
      assert AgeUnits(b.units) == b.units;
      NoRemovals(b.units, |b.units|);
    }
  }

  lemma {:induction false} NoRemovals(us: seq<UnitState>, n: nat)
    requires n <= |us| && !AgesSomething(us)
    ensures AgeRemovals(us, n) == []
  {
    if n > 0 {
      NoRemovals(us, n - 1);
      AgeingShrinks(us[n - 1].statuses);
    }
  }

  /** One pass of the unblocking loop. */
  lemma UnblockDone(b: BattleState)
    ensures !AnyAlive(b.units) || AnyFillable(b.units) ==> Unblock(b) == b
  {
  }

  lemma RunStep(b: BattleState)
    requires ValidField(b.units) && AnyAlive(b.units) && !AnyFillable(b.units)
    ensures AgesSomething(b.units) ==>
              var b' := AgeBlocks(b);
              && ValidField(b'.units) && AnyAlive(b'.units) && Unblock(b') == Unblock(b)
              && FieldBlockTurns(b'.units) < FieldBlockTurns(b.units)
    ensures !AgesSomething(b.units) ==>
              AgeBlocks(b) == b && Unblock(b) == b.(units := ForceFastest(b.units)) && ValidField(ForceFastest(b.units))
  {
    AgedValid(b);
    AgedAlive(b);
    AgeShrinks(b.units);
    NothingAges(b);
    UnblockValid(b);
    hide AgeBlocks, ForceFastest, AgesSomething, AnyFillable, AnyAlive, ValidField;
  }

  // -- ageing, unit by unit ---------------------------------------------------------

  function AgedOne(b: BattleState, n: nat): BattleState
    requires n < |b.units|
  {
    b.(units := b.units[n := AgeUnit(b.units[n])], rows := QueueAll(b.rows, b.told, b.wave, RemovalsOf(b.units[n])))
  }

  /** The battle with the blocks of its first `n` units aged. */
  function AgedTo(b: BattleState, n: nat): (b': BattleState)
    requires n <= |b.units|
    ensures |b'.units| == |b.units|
  {
    b.(units := seq(|b.units|, k requires 0 <= k < |b.units| => if k < n then AgeUnit(b.units[k]) else b.units[k]),
       rows := QueueAll(b.rows, b.told, b.wave, AgeRemovals(b.units, n)))
  }

  lemma AgedNone(b: BattleState)
    ensures AgedTo(b, 0) == b
  {
    assert AgedTo(b, 0).units == b.units;
  }

  lemma AgedAll(b: BattleState)
    ensures AgedTo(b, |b.units|) == AgeBlocks(b)
  {
    assert AgedTo(b, |b.units|).units == AgeUnits(b.units);
  }

  lemma AgedStep(b: BattleState, n: nat)
    requires n < |b.units|
    ensures AgedTo(b, n).units[n] == b.units[n] && AgedOne(AgedTo(b, n), n) == AgedTo(b, n + 1)
  {
    QueueAllAdds(b.rows, b.told, b.wave, AgeRemovals(b.units, n), RemovalsOf(b.units[n]));
    assert AgedOne(AgedTo(b, n), n).units == AgedTo(b, n + 1).units;
  }

  predicate HasBlock(u: UnitState) { Alive(u) && AnySpends(u.statuses, true) }

  lemma SomeBlock(us: seq<UnitState>)
    ensures AgesSomething(us) <==> exists k :: 0 <= k < |us| && HasBlock(us[k])
  {
    if AgesSomething(us) {
      var k :| 0 <= k < |us| && Alive(us[k]) && AnySpends(us[k].statuses, true);
      assert HasBlock(us[k]);
    }
  }

  /** A unit with a gauge block to spend is blocked. */
  lemma BlocksBlock(u: UnitState)
    ensures AnySpends(u.statuses, true) ==> Blocked(u)
  {
  }
}
