/** The whole life of a battle, through server restarts: nothing untold is lost, and the battle
    record adds up. */
module Lives {
  import opened Units
  import opened TurnQueue
  import opened Turns
  import opened Replies
  import opened Delivery
  import opened ClientPicture
  import opened Sessions
  import opened Lineage
  import opened NoDeathUntold
  import opened Reach
  import opened Resume

  /** The client asks something, or the server is restarted and the battle picked up again. */
  datatype Event = Asked(step: Step) | Restarted(world: World)

  /** A restart: the battle comes back from its save and the client is sent the whole field. */
  ghost function Restart(ss: Session, s: Setup, world: World): (ss': Session)
    requires ValidField(ss.b.units)
    ensures ValidField(ss'.b.units)
  {
    if !Fits(ToState(ss.b, s), world) then ss
    else
      var r := Restore(ToState(ss.b, s), world);
      Session(r, Present(r.units), false)
  }

  ghost function Live(ss: Session, s: Setup, evs: seq<Event>): (ss': Session)
    requires ValidField(ss.b.units)
    ensures ValidField(ss'.b.units)
    decreases |evs|
  {
    if evs == [] then ss
    else
      var ss1 := Live(ss, s, evs[..|evs| - 1]);
      match evs[|evs| - 1]
      case Asked(st) => Serve(ss1, st)
      case Restarted(world) => Restart(ss1, s, world)
  }

  ghost predicate EventOf(e: Event, s: Setup) {
    match e
    case Asked(st) => st.env.stage == StageOf(s)
    case Restarted(world) => WorldOf(world, s)
  }

  ghost predicate EventsOf(evs: seq<Event>, s: Setup) {
    forall k :: 0 <= k < |evs| ==> EventOf(evs[k], s)
  }

  // -- reachability, through restarts -----------------------------------------------

  lemma RestartReached(ss: Session, s: Setup, world: World)
    requires Reached(ss.b, s) && WorldOf(world, s)
    ensures Reached(Restart(ss, s, world).b, s) && Good(Restart(ss, s, world), StageOf(s).enemyBase)
  {
    ResumeIsGood(ss.b, s, world);
  }

  lemma ServeReached(ss: Session, st: Step, s: Setup)
    requires Reached(ss.b, s) && st.env.stage == StageOf(s)
    ensures Reached(Serve(ss, st).b, s)
  {
    ReplyReached(ss.b, st.req, st.env, s);
  }

  lemma {:induction false} LifeReached(ss: Session, s: Setup, evs: seq<Event>)
    requires ValidField(ss.b.units) && Reached(ss.b, s) && EventsOf(evs, s)
    ensures Reached(Live(ss, s, evs).b, s)
    decreases |evs|
  {
    hide Reached, Serve, Restart;
    if evs != [] {
      var n := |evs| - 1;
      LifeReached(ss, s, evs[..n]);
      assert EventOf(evs[n], s);
      match evs[n]
      case Asked(st) => ServeReached(Live(ss, s, evs[..n]), st, s);
      case Restarted(world) => RestartReached(Live(ss, s, evs[..n]), s, world);
    }
  }

  /** EVERY JUDGE IS ANSWERED, in every battle that can be reached: whatever the client asks, in
      order or not, whatever the engine does, and through any number of restarts. */
  lemma EveryJudgeAnswered(ss: Session, s: Setup, evs: seq<Event>, env: Env)
    requires ValidField(ss.b.units) && Reached(ss.b, s) && EventsOf(evs, s)
    ensures Reply(Live(ss, s, evs).b, ReqJudge, env).msgs != []
  {
    LifeReached(ss, s, evs);
    hide Reply, Live;
    SeatedOrDecided(Live(ss, s, evs).b);
    JudgeIsAnswered(Live(ss, s, evs).b, env);
  }

  // -- no death untold, through restarts --------------------------------------------

  ghost predicate Orderly(ss: Session, s: Setup, evs: seq<Event>)
    requires ValidField(ss.b.units)
    decreases |evs|
  {
    evs == [] ||
    (var n := |evs| - 1;
     && Orderly(ss, s, evs[..n])
     && (evs[n].Asked? && evs[n].step.req.ReqNextWave? ==>
           Live(ss, s, evs[..n]).ended && !OpeningKills(Live(ss, s, evs[..n]).b, evs[n].step.env)))
  }

  /** NO DEATH GOES UNTOLD, from the opening of a battle through any number of restarts. */
  lemma {:induction false} NoDeathUntoldThroughRestarts(s: Setup, fx: Passives, evs: seq<Event>)
    requires EventsOf(evs, s) && Orderly(Opening(s, fx), s, evs)
    ensures Good(Live(Opening(s, fx), s, evs), StageOf(s).enemyBase)
    decreases |evs|
  {
    hide Good, Serve, Restart, OpeningKills, Reached, Opening;
    var ss := Opening(s, fx);
    OpeningReached(s, fx);
    if evs == [] {
      OpeningGood(s, fx);
    } else {
      var n := |evs| - 1;
      NoDeathUntoldThroughRestarts(s, fx, evs[..n]);
      LifeReached(ss, s, evs[..n]);
      assert EventOf(evs[n], s);
      match evs[n]
      case Asked(st) => ServeGood(Live(ss, s, evs[..n]), st, StageOf(s).enemyBase);
      case Restarted(world) => RestartReached(Live(ss, s, evs[..n]), s, world);
    }
  }

  lemma OpeningReached(s: Setup, fx: Passives)
    ensures Reached(Opening(s, fx).b, s)
    ensures Opening(s, fx).b.totals == map[] && Opening(s, fx).b.wave == 1
  {
    NewBattleReached(s, fx);
    OpensFirst(s, fx);
    OpeningValid(s, fx);
    RollKin(Field0(s).(units := LandAll(Line(s, 1), fx(BattleStart, Field0(s)))));
    hide Roll, LandAll, Line;
  }

  // -- the battle record ------------------------------------------------------------

  /** Damage dealt, damage taken and healing done. */
  datatype Score = Score(done: nat, taken: nat, healed: nat)

  function Nothing(): Score { Score(0, 0, 0) }

  function Plus(a: Score, b: Score): Score {
    Score(a.done + b.done, a.taken + b.taken, a.healed + b.healed)
  }

  lemma PlusLaws(a: Score, b: Score, c: Score)
    ensures Plus(Plus(a, b), c) == Plus(a, Plus(b, c))
    ensures Plus(Plus(a, b), c) == Plus(Plus(a, c), b)
    ensures Plus(a, Nothing()) == a && Plus(Nothing(), a) == a
  {
  }

  function ScoreOf(u: UnitState): Score {
    Score(u.dmgDone, u.dmgTaken, u.healed)
  }

  function Of(u: UnitState, o: nat): Score {
    if u.order == o then ScoreOf(u) else Nothing()
  }

  /** The scores of the units of one order, together. */
  function Under(us: seq<UnitState>, o: nat): Score {
    if us == [] then Nothing() else Plus(Under(us[..|us| - 1], o), Of(us[|us| - 1], o))
  }

  function RowOf(m: map<nat, Total>, o: nat): Score {
    if o in m then Score(m[o].done, m[o].taken, m[o].healed) else Nothing()
  }

  /** The enemy rows of the battle record: the banked totals, and the present enemies on top. */
  function Report(b: BattleState): map<nat, Total> {
    BankAll(b.totals, OfTeam(b.units, TEAM_ENEMY))
  }

  lemma BankOneRow(m: map<nat, Total>, u: UnitState, o: nat)
    ensures RowOf(BankOne(m, u), o) == Plus(RowOf(m, o), Of(u, o))
  {
  }

  lemma {:induction false} BankAllRow(m: map<nat, Total>, us: seq<UnitState>, o: nat)
    ensures RowOf(BankAll(m, us), o) == Plus(RowOf(m, o), Under(us, o))
  {
    hide Plus;
    PlusLaws(RowOf(m, o), Nothing(), Nothing());
    if us != [] {
      var n := |us| - 1;
      BankAllRow(m, us[..n], o);
      BankOneRow(BankAll(m, us[..n]), us[n], o);
      PlusLaws(RowOf(m, o), Under(us[..n], o), Of(us[n], o));
    }
  }

  lemma {:induction false} UnderAdds(a: seq<UnitState>, b: seq<UnitState>, o: nat)
    ensures Under(a + b, o) == Plus(Under(a, o), Under(b, o))
    decreases |b|
  {
    hide Plus, Of;
    if b == [] {
      assert a + b == a;
      PlusLaws(Under(a, o), Nothing(), Nothing());
    } else {
      var n := |b| - 1;
      UnderAdds(a, b[..n], o);
      assert (a + b)[..|a + b| - 1] == a + b[..n];
      PlusLaws(Under(a, o), Under(b[..n], o), Of(b[n], o));
    }
  }

  function Enemies(b: BattleState): seq<UnitState> { OfTeam(b.units, TEAM_ENEMY) }

  /** The enemies that have left the field, each as it stood when its wave was replaced. */
  ghost function Departed(ss: Session, s: Setup, evs: seq<Event>): seq<UnitState>
    requires ValidField(ss.b.units)
    decreases |evs|
  {
    if evs == [] then []
    else
      var n := |evs| - 1;
      Departed(ss, s, evs[..n]) +
      if evs[n].Asked? && evs[n].step.req.ReqNextWave? then Enemies(Live(ss, s, evs[..n]).b) else []
  }

  /** What one request does to the bank: only the next wave touches it. */
  lemma ServeBanks(ss: Session, st: Step, s: Setup)
    requires Reached(ss.b, s)
    ensures Serve(ss, st).b.totals == if st.req.ReqNextWave? then BankAll(ss.b.totals, Enemies(ss.b)) else ss.b.totals
  {
    ReachedSound(ss.b, s);
    if st.req.ReqNextWave? {
      NextWaveServed(ss.b, st.env);
      AdvanceKeeps(ss.b, st.env);
      hide AdvanceWave, Reply;
    } else {
      ReplyKin(ss.b, st.req, st.env);
    }
  }

  lemma RestartBanks(ss: Session, s: Setup, world: World)
    requires Reached(ss.b, s) && WorldOf(world, s)
    ensures Restart(ss, s, world).b.totals == ss.b.totals
  {
    RestoreIs(ss.b, s, world);
  }

  lemma {:induction false} BankIsDeparted(ss: Session, s: Setup, evs: seq<Event>, o: nat)
    requires ValidField(ss.b.units) && Reached(ss.b, s) && EventsOf(evs, s)
    ensures RowOf(Live(ss, s, evs).b.totals, o) == Plus(RowOf(ss.b.totals, o), Under(Departed(ss, s, evs), o))
    decreases |evs|
  {
    hide Reached, Serve, Restart, Plus, RowOf, Of;
    PlusLaws(RowOf(ss.b.totals, o), Nothing(), Nothing());
    if evs != [] {
      var n := |evs| - 1;
      var ss1 := Live(ss, s, evs[..n]);
      var gone := Departed(ss, s, evs[..n]);
      BankIsDeparted(ss, s, evs[..n], o);
      PlusLaws(RowOf(ss.b.totals, o), Under(gone, o), Under(Enemies(ss1.b), o));
      PlusLaws(Under(gone, o), Nothing(), Nothing());
      LifeReached(ss, s, evs[..n]);
      assert EventOf(evs[n], s);
      match evs[n]
      case Asked(st) =>
        ServeBanks(ss1, st, s);
        BankAllRow(ss1.b.totals, Enemies(ss1.b), o);
        UnderAdds(gone, if st.req.ReqNextWave? then Enemies(ss1.b) else [], o);
      case Restarted(world) =>
        RestartBanks(ss1, s, world);
        UnderAdds(gone, [], o);
    }
  }

  /** Every enemy the battle ever fielded. */
  ghost function Fielded(s: Setup, fx: Passives, evs: seq<Event>): seq<UnitState> {
    Departed(Opening(s, fx), s, evs) + Enemies(Live(Opening(s, fx), s, evs).b)
  }

  /** THE RECORD ADDS UP, slot by slot: over any number of wave changes and restarts, a row of
      the report is the sum over every enemy that ever stood under its order. */
  lemma RecordConserved(s: Setup, fx: Passives, evs: seq<Event>, o: nat)
    requires EventsOf(evs, s)
    ensures RowOf(Report(Live(Opening(s, fx), s, evs).b), o) == Under(Fielded(s, fx, evs), o)
  {
    hide Opening, Reached, Plus;
    OpeningReached(s, fx);
    var ss := Opening(s, fx);
    var b := Live(ss, s, evs).b;
    BankIsDeparted(ss, s, evs, o);
    BankAllRow(b.totals, Enemies(b), o);
    UnderAdds(Departed(ss, s, evs), Enemies(b), o);
    PlusLaws(Under(Departed(ss, s, evs), o), Under(Enemies(b), o), Nothing());
  }

  // -- column sums ------------------------------------------------------------------

  function Whole(us: seq<UnitState>): Score {
    if us == [] then Nothing() else Plus(Whole(us[..|us| - 1]), ScoreOf(us[|us| - 1]))
  }

  /** The sums of the columns of a report, over the orders below `n`. */
  function Column(m: map<nat, Total>, n: nat): Score {
    if n == 0 then Nothing() else Plus(Column(m, n - 1), RowOf(m, n - 1))
  }

  function UnderAll(us: seq<UnitState>, n: nat): Score {
    if n == 0 then Nothing() else Plus(UnderAll(us, n - 1), Under(us, n - 1))
  }

  lemma {:induction false} UnderAllSnoc(us: seq<UnitState>, n: nat)
    requires us != []
    ensures var u := us[|us| - 1];
            UnderAll(us, n) == Plus(UnderAll(us[..|us| - 1], n), if u.order < n then ScoreOf(u) else Nothing())
  {
    hide Plus, ScoreOf;
    PlusLaws(Nothing(), Nothing(), Nothing());
    if n > 0 {
      var u, us' := us[|us| - 1], us[..|us| - 1];
      UnderAllSnoc(us, n - 1);
      PlusLaws(UnderAll(us', n - 1), if u.order < n - 1 then ScoreOf(u) else Nothing(), Under(us, n - 1));
      PlusLaws(UnderAll(us', n - 1), Under(us', n - 1), Of(u, n - 1));
      PlusLaws(UnderAll(us', n), Nothing(), Nothing());
      PlusLaws(Under(us', n - 1), Nothing(), Nothing());
    }
  }

  lemma {:induction false} UnderAllNone(n: nat)
    ensures UnderAll([], n) == Nothing()
  {
    if n > 0 {
      UnderAllNone(n - 1);
    }
  }

  ghost predicate OrdersBelow(us: seq<UnitState>, n: nat) {
    forall i :: 0 <= i < |us| ==> us[i].order < n
  }

  lemma {:induction false} EveryoneCounted(us: seq<UnitState>, n: nat)
    requires OrdersBelow(us, n)
    ensures UnderAll(us, n) == Whole(us)
  {
    if us == [] {
      UnderAllNone(n);
    } else {
      EveryoneCounted(us[..|us| - 1], n);
      UnderAllSnoc(us, n);
    }
  }

  lemma {:induction false} ColumnsMatch(s: Setup, fx: Passives, evs: seq<Event>, n: nat)
    requires EventsOf(evs, s)
    ensures Column(Report(Live(Opening(s, fx), s, evs).b), n) == UnderAll(Fielded(s, fx, evs), n)
    decreases n
  {
    if n > 0 {
      ColumnsMatch(s, fx, evs, n - 1);
      RecordConserved(s, fx, evs, n - 1);
    }
    hide Opening, Report, Fielded, Plus;
  }

  /** THE COLUMNS ADD UP: the enemy rows of the report sum to the damage dealt, taken and
      healed by every enemy ever fielded, though slots and orders are used again. */
  lemma ColumnsConserved(s: Setup, fx: Passives, evs: seq<Event>, n: nat)
    requires EventsOf(evs, s) && OrdersBelow(Fielded(s, fx, evs), n)
    ensures Column(Report(Live(Opening(s, fx), s, evs).b), n) == Whole(Fielded(s, fx, evs))
  {
    hide Opening, Report, Fielded, OrdersBelow;
    ColumnsMatch(s, fx, evs, n);
    EveryoneCounted(Fielded(s, fx, evs), n);
  }
}
