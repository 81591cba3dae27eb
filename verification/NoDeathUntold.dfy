/** The main results over whole sessions: no death goes untold, and no wave change loses news. */
module NoDeathUntold {
  import opened Wrappers
  import opened Units
  import opened TurnQueue
  import opened Turns
  import opened Outbound
  import opened Replies
  import opened Delivery
  import opened ClientPicture
  import opened Sessions
  import opened Lineage

  lemma InnerFine(b: BattleState, req: Request, env: Env, c: Client)
    requires Fine(b, c, env.stage.enemyBase) && (req.ReqNextWave? ==> b.deaths == [] && !OpeningKills(b, env))
    ensures var a := Inner(b, req, env); Fine(a.b, Hear(c, a.msgs), env.stage.enemyBase)
  {
    var base := env.stage.enemyBase;
    hide Fine, PlayerAttack, AdvanceWave, AnswerJudge, OpenTurn, SwapUnits, SetAuto, OpeningKills;
    match req
    case ReqReady(auto) => ReadyFine(b, auto, c, base);
    case ReqStartTurn => OpenTurnFine(b, c, base); NeutralHeard(c, OpenTurn(b).msgs);
    case ReqJudge => JudgeFine(b, env, c, base);
    case ReqAttack(at, de, key) => PlayerAttackFine(b, at, de, key, env, c, base);
    case ReqNextWave => NextWaveFine(b, env, c);
    case ReqAuto(want) => AutoFlag(b, want, c, base); SetAutoFine(b.(auto := want != 0), env, c, base);
    case ReqChangeChar(o) => ChangeFine(b, o, env, c, base);
    case ReqReconnect(accept) => ReconnectFine(b, accept, env, c, base);
    case _ => StillFine(b, req, env, c);
  }

  lemma ReadyFine(b: BattleState, auto: Option<int>, c: Client, base: nat)
    requires Fine(b, c, base)
    ensures var b1 := if auto.Some? then b.(auto := auto.value != 0) else b;
            Fine(OpenTurn(b1).b, Hear(c, OpenTurn(b1).msgs), base)
  {
    var b1 := if auto.Some? then b.(auto := auto.value != 0) else b;
    if auto.Some? { FlagsFine(b, c, base, b.turnOpen, b.waveBegun, auto.value != 0); }
    hide Fine, OpenTurn;
    OpenTurnFine(b1, c, base);
    NeutralHeard(c, OpenTurn(b1).msgs);
  }

  lemma AutoFlag(b: BattleState, want: int, c: Client, base: nat)
    requires Fine(b, c, base)
    ensures Fine(b.(auto := want != 0), c, base)
  {
    FlagsFine(b, c, base, b.turnOpen, b.waveBegun, want != 0);
  }

  lemma ChangeFine(b: BattleState, o: nat, env: Env, c: Client, base: nat)
    requires Fine(b, c, base)
    ensures var a := Inner(b, ReqChangeChar(o), env); Fine(a.b, Hear(c, a.msgs), base)
  {
    var a := Inner(b, ReqChangeChar(o), env);
    assert AllNeutral(a.msgs);
    NeutralHeard(c, a.msgs);
    if Acting(b).Some? {
      var out := b.units[Acting(b).value].order;
      if SwapUnits(b, o, out).Some? { SwapFine(b, o, out, c, base); }
    }
  }

  lemma ReconnectFine(b: BattleState, accept: bool, env: Env, c: Client, base: nat)
    requires Fine(b, c, base)
    ensures var a := Inner(b, ReqReconnect(accept), env); Fine(a.b, Hear(c, a.msgs), base)
  {
    if accept {
      hide *;
      RestartServed(b, c, base, env);
      RestartFine(b, c, base);
      HearOne(c, StartMsg(b, env.wireable));
      HearsStart(c, b, env.wireable);
    } else {
      NeutralHeard(c, []);
    }
  }

  lemma StillFine(b: BattleState, req: Request, env: Env, c: Client)
    requires Fine(b, c, env.stage.enemyBase)
    requires req.ReqRetreat? || req.ReqBattleEnd? || req.ReqCharInfo? || req.ReqSelectRune? || req.ReqReplay?
          || req.ReqReportError? || req.ReqOther?
    ensures var a := Inner(b, req, env); Fine(a.b, Hear(c, a.msgs), env.stage.enemyBase)
  {
    var a := Inner(b, req, env);
    assert a.b == b && AllNeutral(a.msgs);
    NeutralHeard(c, a.msgs);
  }

  // -- the flush --------------------------------------------------------------------

  /** A reply that fills no slot and restarts no picture only has neutral messages in it. */
  lemma QuietReplies(b: BattleState, req: Request, env: Env)
    requires ValidField(b.units) && !AnyPopulates(Inner(b, req, env).msgs)
    requires !req.ReqNextWave? && !req.ReqReconnect?
    ensures AllNeutral(Inner(b, req, env).msgs)
  {
    var ms := Inner(b, req, env).msgs;
    OnlyThese(b, req, env);
    hide Inner;
    forall k | 0 <= k < |ms| ensures Neutral(ms[k]) {
      assert !Populates(ms[k]);
    }
  }

  /** Neither message that shows a whole side of the field. */
  predicate ShowsNothing(ms: seq<Message>) {
    forall k :: 0 <= k < |ms| ==> !ms[k].NextWave? && !ms[k].ServerStart?
  }

  lemma PlayShowsNothing(b: BattleState, team: int, env: Env)
    requires ValidField(b.units)
    ensures ShowsNothing(PlayTurn(b, team, env).msgs)
  {
    hide EndTurn, ResolveSkill, AutoMove;
  }

  lemma EndWaveShowsNothing(b: BattleState, stage: Stage)
    ensures ShowsNothing(EndWave(b, stage).msgs)
  {
    hide Drain, TeamAlive;
  }

  lemma ShowsBehind(m: Message, ms: seq<Message>)
    requires !m.NextWave? && !m.ServerStart? && ShowsNothing(ms)
    ensures ShowsNothing([m] + ms) && ShowsNothing([m])
  {
  }

  lemma JudgeShowsNothing(b: BattleState, env: Env)
    requires ValidField(b.units)
    ensures ShowsNothing(AnswerJudge(b, env).msgs)
  {
    hide PlayTurn, EndWave, Decided, PlayerTurn, ShowsNothing;
    EndWaveShowsNothing(b, env.stage);
    PlayShowsNothing(b, TEAM_ENEMY, env);
    PlayShowsNothing(b, TEAM_PLAYER, env);
    ShowsBehind(Judge, PlayTurn(b, TEAM_ENEMY, env).msgs);
  }

  lemma AutoShowsNothing(b: BattleState, env: Env)
    requires ValidField(b.units)
    ensures ShowsNothing(SetAuto(b, env).msgs)
  {
    hide PlayTurn, PlayerTurn, ShowsNothing;
    PlayShowsNothing(b, TEAM_ENEMY, env);
    ShowsBehind(AutoSet(b.auto), PlayTurn(b, TEAM_ENEMY, env).msgs);
  }

  lemma OnlyThese(b: BattleState, req: Request, env: Env)
    requires ValidField(b.units) && !req.ReqNextWave? && !req.ReqReconnect?
    ensures ShowsNothing(Inner(b, req, env).msgs)
  {
    if req.ReqJudge? {
      JudgeShowsNothing(b, env);
    } else if req.ReqAuto? {
      AutoShowsNothing(b.(auto := req.want != 0), env);
    } else {
      hide EndTurn, SwapUnits, ResolveSkill, AnswerJudge, SetAuto, AdvanceWave, Find, SlotFor, SpendSkill;
    }
  }

  lemma FlushFine(a: Answer, c: Client, base: nat)
    requires Fine(a.b, c, base) && AllNeutral(a.msgs)
    ensures Fine(a.b.(deaths := Drain1(a.b).kept), Hear(c, SentMessages(Drain1(a.b)) + a.msgs), base)
  {
    DrainFine(a.b, c, base);
    hide Fine, Drain;
    HearBoth(c, SentMessages(Drain1(a.b)), a.msgs);
    NeutralHeard(Hear(c, SentMessages(Drain1(a.b))), a.msgs);
  }

  /** A drained queue only shrinks the news; a client that draws nobody dead needs none of it. */
  lemma FewerRows(b: BattleState, c: Client, base: nat)
    requires Fine(b, c, base) && forall i :: 0 <= i < |b.units| && !Alive(b.units[i]) ==> !Draws(c, b.units[i])
    ensures Fine(b.(deaths := Drain1(b).kept), c, base)
  {
    var b' := b.(deaths := Drain1(b).kept);
    forall k | 0 <= k < |b'.deaths| && b'.deaths[k].die && b'.deaths[k].wave == b'.wave ensures Dead(b'.units, b'.deaths[k].order) {
      RowWasQueued(b, b'.deaths[k]);
    }
  }

  /** With nothing queued there is nothing to flush. */
  lemma FlushesNothing(a: Answer)
    requires a.b.deaths == []
    ensures Answer(a.b.(deaths := Drain1(a.b).kept), SentMessages(Drain1(a.b)) + a.msgs) == a
  {
    NothingToDrain(a.b);
    hide Drain;
    assert SentMessages(Drain1(a.b)) + a.msgs == a.msgs;
  }

  lemma NextWaveFlush(b: BattleState, env: Env, c: Client)
    requires Fine(b, c, env.stage.enemyBase) && b.deaths == [] && !OpeningKills(b, env)
    ensures var a := Flushed(b, ReqNextWave, env); Fine(a.b, Hear(c, a.msgs), env.stage.enemyBase)
  {
    ValidFine(b, c, env.stage.enemyBase);
    NextWaveFine(b, env, c);
    hide Inner, Fine, Drain, OpeningKills, SentMessages;
    FlushesNothing(Inner(b, ReqNextWave, env));
  }

  lemma FlushedFine(b: BattleState, req: Request, env: Env, c: Client)
    requires Fine(b, c, env.stage.enemyBase) && (req.ReqNextWave? ==> b.deaths == [] && !OpeningKills(b, env))
    ensures var a := Flushed(b, req, env); Fine(a.b, Hear(c, a.msgs), env.stage.enemyBase)
  {
    var base := env.stage.enemyBase;
    if req.ReqNextWave? {
      NextWaveFlush(b, env, c);
    } else {
      InnerFine(b, req, env, c);
      ValidFine(b, c, base);
      hide Inner, Fine, Drain, OpeningKills;
      if !AnyPopulates(Inner(b, req, env).msgs) {
        if req == ReqReconnect(true) {
          RestartFlush(b, env, c, base);
        } else {
          NeutralFlush(b, req, env, c, base);
        }
      }
    }
  }

  lemma ValidFine(b: BattleState, c: Client, base: nat)
    requires Fine(b, c, base)
    ensures ValidField(b.units)
  {
  }

  lemma NeutralFlush(b: BattleState, req: Request, env: Env, c: Client, base: nat)
    requires ValidField(b.units) && Fine(Inner(b, req, env).b, Hear(c, Inner(b, req, env).msgs), base)
    requires !AnyPopulates(Inner(b, req, env).msgs) && !req.ReqNextWave? && req != ReqReconnect(true)
    ensures var a := Flushed(b, req, env); Fine(a.b, Hear(c, a.msgs), base)
  {
    if !req.ReqReconnect? { QuietReplies(b, req, env); }
    var a := Inner(b, req, env);
    assert AllNeutral(a.msgs);
    hide Inner, Fine;
    NeutralHeard(c, a.msgs);
    FlushFine(a, c, base);
  }

  lemma RestartFlush(b: BattleState, env: Env, c: Client, base: nat)
    requires Fine(b, c, base)
    ensures var a := Inner(b, ReqReconnect(true), env); var w := Drain1(a.b);
            Fine(a.b.(deaths := w.kept), Hear(c, SentMessages(w) + a.msgs), base)
  {
    hide *;
    RestartServed(b, c, base, env);
    RestartFine(b, c, base);
    var b1, m := b.(turnOpen := false), StartMsg(b, env.wireable);
    DrawsTheLiving(b, c, base);
    FewerRows(b1, Present(b.units), base);
    var ms := SentMessages(Drain1(b1));
    HearBoth(c, ms, [m]);
    HearOne(Hear(c, ms), m);
    HearsStart(Hear(c, ms), b, env.wireable);
  }

  lemma RestartServed(b: BattleState, c: Client, base: nat, env: Env)
    requires Fine(b, c, base)
    ensures ValidField(b.units)
    ensures Inner(b, ReqReconnect(true), env) == Answer(b.(turnOpen := false), [StartMsg(b, env.wireable)])
  {
    hide StartMsg;
  }

  lemma DrawsTheLiving(b: BattleState, c: Client, base: nat)
    requires Fine(b, c, base)
    ensures forall i :: 0 <= i < |b.units| && !Alive(b.units[i]) ==> !Draws(Present(b.units), b.units[i])
  {
    forall i | 0 <= i < |b.units| && !Alive(b.units[i]) ensures !Draws(Present(b.units), b.units[i]) {
      OnTeam(b.units, i, b.units[i].team);
    }
  }

  /** EVERY REQUEST keeps the battle sound and the client informed; only the change of waves
      asks for anything, namely that nothing be queued and its opening spare the living party. */
  lemma ReplyFine(b: BattleState, req: Request, env: Env, c: Client)
    requires Fine(b, c, env.stage.enemyBase) && (req.ReqNextWave? ==> b.deaths == [] && !OpeningKills(b, env))
    ensures var a := Reply(b, req, env); Fine(a.b, Hear(c, a.msgs), env.stage.enemyBase)
  {
    hide Flushed, Inner, Drain, OpeningKills;
    if req.ReqJudge? && DeathQueued(b) {
      var w := Drain1(b);
      DrainFine(b, c, env.stage.enemyBase);
      if w.sent == [] {
        assert SentMessages(w) == [];
        FlushedFine(b.(deaths := w.kept), req, env, c);
      }
    } else {
      FlushedFine(b, req, env, c);
    }
  }

  // -- sessions ---------------------------------------------------------------------

  /** A request, and what chance decides while it is served. */
  datatype Step = Step(req: Request, env: Env)

  /** The battle, the client's picture, and whether the last reply ended a wave. */
  datatype Session = Session(b: BattleState, c: Client, ended: bool)

  ghost function Serve(s: Session, st: Step): (s': Session)
    requires ValidField(s.b.units)
    ensures ValidField(s'.b.units)
  {
    var a := Reply(s.b, st.req, st.env);
    Session(a.b, Hear(s.c, a.msgs), EndsWave(a.msgs))
  }

  ghost function Run(s: Session, steps: seq<Step>): (s': Session)
    requires ValidField(s.b.units)
    ensures ValidField(s'.b.units)
    decreases |steps|
  {
    if steps == [] then s else Serve(Run(s, steps[..|steps| - 1]), steps[|steps| - 1])
  }

  /** The client asks for the next wave only on a reply that ended one, and no wave's
      battle-start passives kill a member of the party who lives. */
  ghost predicate Disciplined(s: Session, steps: seq<Step>)
    requires ValidField(s.b.units)
    decreases |steps|
  {
    steps == [] ||
    (var n := |steps| - 1;
     && Disciplined(s, steps[..n])
     && (steps[n].req.ReqNextWave? ==> Run(s, steps[..n]).ended && !OpeningKills(Run(s, steps[..n]).b, steps[n].env)))
  }

  ghost predicate OneStage(steps: seq<Step>, base: nat) {
    forall k :: 0 <= k < |steps| ==> steps[k].env.stage.enemyBase == base
  }

  ghost predicate Good(s: Session, base: nat) {
    Fine(s.b, s.c, base) && (s.ended ==> s.b.deaths == [])
  }

  lemma ServeGood(s: Session, st: Step, base: nat)
    requires Good(s, base) && st.env.stage.enemyBase == base
    requires st.req.ReqNextWave? ==> s.ended && !OpeningKills(s.b, st.env)
    ensures Good(Serve(s, st), base)
  {
    ReplyFine(s.b, st.req, st.env, s.c);
    if EndsWave(Reply(s.b, st.req, st.env).msgs) { WaveEndsEmpty(s.b, st.req, st.env); }
  }

  /** NO DEATH GOES UNTOLD: in every session whose wave changes follow wave ends and open without
      killing a living member of the party, whatever else the engine does, every unit the client
      still draws though it is dead is named by a queued death, everybody alive is drawn, and no
      queued death is false. */
  lemma {:induction false} NoDeathGoesUntold(s: Session, steps: seq<Step>, base: nat)
    requires ValidField(s.b.units) && Good(s, base) && OneStage(steps, base) && Disciplined(s, steps)
    ensures Good(Run(s, steps), base)
    decreases |steps|
  {
    hide Good, Serve, OpeningKills;
    if steps != [] {
      var n := |steps| - 1;
      NoDeathGoesUntold(s, steps[..n], base);
      ServeGood(Run(s, steps[..n]), steps[n], base);
    }
  }

  /** NO WAVE CHANGE LOSES NEWS: when it is served, nothing is queued to be thrown away. */
  lemma WaveChangeLosesNothing(s: Session, steps: seq<Step>, base: nat)
    requires ValidField(s.b.units) && Good(s, base) && OneStage(steps, base) && Disciplined(s, steps)
    requires steps != [] && steps[|steps| - 1].req.ReqNextWave?
    ensures Run(s, steps[..|steps| - 1]).b.deaths == []
  {
    NoDeathGoesUntold(s, steps[..|steps| - 1], base);
  }

  lemma SeatedOrDecided(b: BattleState)
    requires Seat(b)
    ensures Acting(b).Some? || Decided(b)
  {
    if !Decided(b) {
      var i :| 0 <= i < |b.units| && b.units[i].team == TEAM_ENEMY && Alive(b.units[i]);
      assert AnyAlive(b.units);
    }
  }

  /** The discipline is needed: a wave change with a member of the party dead and still
      queued leaves the client drawing it for good. */
  lemma UndisciplinedLosesDeath(b: BattleState, env: Env, c: Client)
    requires Fine(b, c, env.stage.enemyBase) && DrawsFallen(b, c)
    ensures var a := Reply(b, ReqNextWave, env); !Informed(a.b, Hear(c, a.msgs))
  {
    NextWaveServed(b, env);
    AdvanceInforms(b, env, c);
    hide AdvanceWave, Informed, Reply;
    HearOne(c, NextWaveMsg(AdvanceWave(b, env)));
  }

  /** An out-of-band death that is sent is of this wave and names a unit that is dead. */
  lemma SentDeathsAreTrue(b: BattleState, c: Client, d: DeathRow)
    requires Informed(b, c) && d in Drain1(b).sent && d.die
    ensures d.wave == b.wave && Dead(b.units, d.order)
  {
    DrainConserves(b, Some(1));
    RowWasQueued(b, d);
  }
}
