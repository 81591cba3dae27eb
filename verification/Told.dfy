/** The server's record of what the client was told of statuses, tied to the battle: what is
    queued between two attacks, what the client holds, and what the next attack makes of it. */
module Told {
  import opened Wrappers
  import opened Units
  import opened StatusRows
  import opened TurnQueue
  import opened Turns
  import opened Outbound
  import opened Replies
  import opened Bearings

  // -- what the client holds --------------------------------------------------------

  function HearRow(h: Held, m: Message): Held {
    match m
    case Attack(_, status) => Play(h, status)
    case _ => h
  }

  /** The statuses a client holds that plays the status rows of every attack it is sent. */
  function HearRows(h: Held, ms: seq<Message>): Held
    decreases |ms|
  {
    if ms == [] then h else HearRow(HearRows(h, ms[..|ms| - 1]), ms[|ms| - 1])
  }

  lemma {:induction false} HearRowsAdds(h: Held, a: seq<Message>, b: seq<Message>)
    ensures HearRows(h, a + b) == HearRows(HearRows(h, a), b)
    decreases |b|
  {
    if b == [] {
      assert a + b == a;
    } else {
      HearRowsAdds(h, a, b[..|b| - 1]);
      assert (a + b)[..|a + b| - 1] == a + b[..|b| - 1];
    }
  }

  lemma HearRowOne(h: Held, m: Message)
    ensures HearRows(h, [m]) == HearRow(h, m)
  {
    assert [m][..0] == [];
  }

  predicate NoRows(m: Message) {
    m.Attack? ==> m.status == []
  }

  lemma {:induction false} HearNoRows(h: Held, ms: seq<Message>)
    requires forall k :: 0 <= k < |ms| ==> NoRows(ms[k])
    ensures HearRows(h, ms) == h
  {
    if ms != [] {
      HearNoRows(h, ms[..|ms| - 1]);
      assert NoRows(ms[|ms| - 1]);
    }
  }

  lemma AsideRows(h: Held, m: Message, ms: seq<Message>)
    requires NoRows(m)
    ensures HearRows(h, [m] + ms) == HearRows(h, ms)
  {
    HearRowsAdds(h, [m], ms);
    HearRowOne(h, m);
  }

  // -- the attack a request plays ---------------------------------------------------

  /** An attack: the battle it is resolved on, what its skill does, and the battle whose turn
      then ends. */
  datatype Ending = Ending(before: BattleState, es: seq<Effect>, after: BattleState)

  function PlayOf(b: BattleState, team: int, env: Env): (e: Option<Ending>)
    ensures ValidField(b.units) && e.Some? ==> ValidField(e.value.after.units)
  {
    match AutoMove(b, team, env)
    case None => None
    case Some(m) =>
      var b1 := ResolveSkill(b, m.attacker, m.defender, m.slot, env).0;
      assert ValidField(b.units) ==> ValidField(SpendSkill(b1, m.attacker, m.slot).units) by {
        if ValidField(b.units) {
          ResolveValid(b, m.attacker, m.defender, m.slot, env);
          SpendSkillValid(b1, m.attacker, m.slot);
        }
      }
      Some(Ending(b, EffectsOf(b, m.attacker, m.defender, m.slot, env), SpendSkill(b1, m.attacker, m.slot)))
  }

  function PlayerOf(b: BattleState, at: nat, de: nat, key: int, env: Env): (e: Ending)
    ensures ValidField(b.units) ==> ValidField(e.after.units)
  {
    var slot := SlotFor(b, at, key);
    var b1 := SpendSkill(b, at, slot);
    assert ValidField(b.units) ==> ValidField(ResolveSkill(b1, at, de, slot, env).0.units) by {
      if ValidField(b.units) {
        SpendSkillValid(b, at, slot);
        ResolveValid(b1, at, de, slot, env);
      }
    }
    Ending(b1, EffectsOf(b1, at, de, slot, env), ResolveSkill(b1, at, de, slot, env).0)
  }

  function JudgeOf(b: BattleState, env: Env): (e: Option<Ending>)
    ensures ValidField(b.units) && e.Some? ==> ValidField(e.value.after.units)
  {
    if Decided(b) then None
    else if !PlayerTurn(b) then PlayOf(b, TEAM_PLAYER, env)
    else if b.auto then PlayOf(b, TEAM_ENEMY, env)
    else None
  }

  function InnerOf(b: BattleState, req: Request, env: Env): (e: Option<Ending>)
    ensures ValidField(b.units) && e.Some? ==> ValidField(e.value.after.units)
  {
    match req
    case ReqJudge => JudgeOf(b, env)
    case ReqAttack(at, de, key) => Some(PlayerOf(b, at, de, key, env))
    case ReqAuto(want) =>
      var b1 := b.(auto := want != 0);
      if b1.auto && b1.turnOpen && PlayerTurn(b1) then PlayOf(b1, TEAM_ENEMY, env) else None
    case _ => None
  }

  /** The attack with which a request is answered, if it is answered with one; a death flushed
      alone is none. */
  function TurnOf(b: BattleState, req: Request, env: Env): (e: Option<Ending>)
    ensures ValidField(b.units) && e.Some? ==> ValidField(e.value.after.units)
  {
    if req.ReqJudge? && DeathQueued(b) then
      if Drain1(b).sent != [] then None else InnerOf(b.(deaths := Drain1(b).kept), req, env)
    else InnerOf(b, req, env)
  }

  /** The attack's own changes. */
  function Own(e: Ending): seq<Change> {
    ChangesOf(Landed(e.before.units, e.es))
  }

  /** The status rows the attack carries: its own, and the queued ones behind them. */
  function Sent(e: Ending, wireable: int -> bool): seq<Change> {
    StatusOf(e.before, Landed(e.before.units, e.es), wireable)
  }

  /** Nobody's statuses differ, and neither do the queue of rows and the record. */
  ghost predicate Untouched(b: BattleState, b': BattleState) {
    && SameOrders(b'.units, b.units)
    && (forall i :: 0 <= i < |b.units| ==> b'.units[i].statuses == b.units[i].statuses)
    && b'.rows == b.rows && b'.told == b.told && b'.wave == b.wave && ValidField(b'.units)
  }

  lemma UntouchedMoves(b: BattleState, b': BattleState)
    requires Tidy(b) && Untouched(b, b')
    ensures Moves(b, b', []) && Tidy(b')
  {
    Still(b, b');
    MovesTidy(b, b', []);
  }

  /** The attack moves the statuses as its own changes say, empties the queue, and puts on record
      what it carries. */
  ghost predicate Ends(b: BattleState, e: Ending, wireable: int -> bool) {
    && Untouched(b, e.before) && Tidy(e.after) && FieldMoves(b.units, e.after.units, Own(e))
    && e.after.rows == [] && e.after.told == Tell(b.told, Sent(e, wireable)) && e.after.wave == b.wave
  }

  /** What an answer does to statuses: nothing, or an attack and the end of a turn. */
  ghost predicate Answers(b: BattleState, e: Option<Ending>, a: Answer, env: Env, h: Held) {
    match e
    case None => Untouched(b, a.b) && HearRows(h, a.msgs) == h
    case Some(e) =>
      && Ends(b, e, env.wireable) && Untouched(EndTurn(e.after, env.fx), a.b)
      && HearRows(h, a.msgs) == Play(h, Sent(e, env.wireable))
  }

  lemma Idle(b: BattleState)
    requires ValidField(b.units)
    ensures Untouched(b, b)
  {
  }

  lemma UntouchedOn(b: BattleState, b1: BattleState, b2: BattleState)
    requires Untouched(b, b1) && Untouched(b1, b2)
    ensures Untouched(b, b2)
  {
  }

  lemma ResolveMoves(b: BattleState, at: nat, de: nat, slot: int, env: Env)
    requires Tidy(b)
    ensures var r := ResolveSkill(b, at, de, slot, env); var done := Landed(b.units, EffectsOf(b, at, de, slot, env));
            && Tidy(r.0) && FieldMoves(b.units, r.0.units, ChangesOf(done))
            && r.0.rows == [] && r.0.told == Tell(b.told, r.1.status) && r.0.wave == b.wave
            && r.1.status == StatusOf(b, done, env.wireable)
  {
    var es := EffectsOf(b, at, de, slot, env);
    LandAllMoves(b.units, es);
    ResolveValid(b, at, de, slot, env);
    hide FieldMoves, LandAll, Landed, EffectsOf, StatusOf, HitsOf;
    MovesKeepDistinct(b.units, LandAll(b.units, es), ChangesOf(Landed(b.units, es)));
  }

  lemma SpendUntouched(b: BattleState, at: nat, slot: int)
    requires ValidField(b.units)
    ensures Untouched(b, SpendSkill(b, at, slot))
  {
    SpendSkillValid(b, at, slot);
  }

  lemma MovesAside(us: seq<UnitState>, b: BattleState, b': BattleState, cs: seq<Change>)
    requires FieldMoves(us, b.units, cs) && Tidy(b) && Untouched(b, b')
    ensures FieldMoves(us, b'.units, cs) && Tidy(b')
  {
    UntouchedMoves(b, b');
    FieldMovesOn(us, b.units, b'.units, cs, []);
    assert cs + [] == cs;
  }

  lemma PlayEnds(b: BattleState, at: nat, de: nat, slot: int, env: Env)
    requires Tidy(b)
    ensures var s := ResolveSkill(b, at, de, slot, env);
            var e := Ending(b, EffectsOf(b, at, de, slot, env), SpendSkill(s.0, at, slot));
            Ends(b, e, env.wireable) && s.1.status == Sent(e, env.wireable)
  {
    hide ResolveSkill, SpendSkill, FieldMoves, EffectsOf, Landed, StatusOf, Untouched, Tidy;
    var s := ResolveSkill(b, at, de, slot, env);
    ResolveMoves(b, at, de, slot, env);
    IsValid(s.0);
    IsValid(b);
    SpendUntouched(s.0, at, slot);
    MovesAside(b.units, s.0, SpendSkill(s.0, at, slot), ChangesOf(Landed(b.units, EffectsOf(b, at, de, slot, env))));
    SameRows(s.0, SpendSkill(s.0, at, slot));
    Idle(b);
  }

  lemma PlayAnswers(b: BattleState, team: int, env: Env, h: Held)
    requires Tidy(b)
    ensures Answers(b, PlayOf(b, team, env), PlayTurn(b, team, env), env, h)
  {
    hide EndTurn, Untouched, AutoMove, Ends;
    Idle(b);
    var m := AutoMove(b, team, env);
    if m.Some? {
      var s := ResolveSkill(b, m.value.attacker, m.value.defender, m.value.slot, env);
      PlayEnds(b, m.value.attacker, m.value.defender, m.value.slot, env);
      hide ResolveSkill, SpendSkill, EffectsOf;
      Idle(EndTurn(PlayOf(b, team, env).value.after, env.fx));
      HearRowOne(h, s.1);
    }
  }

  lemma SameRows(b: BattleState, b': BattleState)
    requires Untouched(b, b')
    ensures b'.rows == b.rows && b'.told == b.told && b'.wave == b.wave
  {
  }

  lemma PlayerAnswers(b: BattleState, at: nat, de: nat, key: int, env: Env, h: Held)
    requires Tidy(b)
    ensures Answers(b, Some(PlayerOf(b, at, de, key, env)), PlayerAttack(b, at, de, key, env), env, h)
  {
    var slot := SlotFor(b, at, key);
    var b1 := SpendSkill(b, at, slot);
    SpendUntouched(b, at, slot);
    UntouchedMoves(b, b1);
    ResolveMoves(b1, at, de, slot, env);
    var s := ResolveSkill(b1, at, de, slot, env);
    hide ResolveSkill, SpendSkill, EndTurn, FieldMoves, EffectsOf, Landed, StatusOf, Untouched, SlotFor;
    var cs := ChangesOf(Landed(b1.units, EffectsOf(b1, at, de, slot, env)));
    FieldMovesOn(b.units, b1.units, s.0.units, [], cs);
    assert [] + cs == cs;
    SameRows(b, b1);
    Idle(EndTurn(s.0, env.fx));
    HearRowOne(h, s.1);
  }

  lemma AnsweredAside(b: BattleState, e: Option<Ending>, a: Answer, a': Answer, env: Env, h: Held)
    requires Answers(b, e, a, env, h) && Untouched(a.b, a'.b) && HearRows(h, a'.msgs) == HearRows(h, a.msgs)
    ensures Answers(b, e, a', env, h)
  {
  }

  lemma DeathsAside(b: BattleState, ds: seq<DeathRow>)
    requires Tidy(b)
    ensures Untouched(b, b.(deaths := ds)) && Tidy(b.(deaths := ds))
  {
  }

  lemma {:induction false} EndWaveRows(b: BattleState, stage: Stage, h: Held)
    ensures HearRows(h, EndWave(b, stage).msgs) == h
  {
    hide Drain, TeamAlive;
    HearNoRows(h, EndWave(b, stage).msgs);
  }

  lemma JudgeAnswers(b: BattleState, env: Env, h: Held)
    requires Tidy(b)
    ensures Answers(b, JudgeOf(b, env), AnswerJudge(b, env), env, h)
  {
    IsValid(b);
    hide PlayTurn, PlayOf, EndTurn, Drain, PlayerTurn, Decided, Tidy, Ends;
    Idle(b);
    if Decided(b) {
      DeathsAside(b, Drain1(b).kept);
      EndWaveRows(b, env.stage, h);
    } else if PlayerTurn(b) {
      HearNoRows(h, [Judge]);
      if b.auto {
        var a := PlayTurn(b, TEAM_ENEMY, env);
        PlayAnswers(b, TEAM_ENEMY, env, h);
        AsideRows(h, Judge, a.msgs);
        AnsweredAside(b, PlayOf(b, TEAM_ENEMY, env), a, AnswerJudge(b, env), env, h);
      }
    } else {
      PlayAnswers(b, TEAM_PLAYER, env, h);
    }
  }

  lemma AutoAnswers(b: BattleState, env: Env, h: Held)
    requires Tidy(b)
    ensures Answers(b, if b.auto && b.turnOpen && PlayerTurn(b) then PlayOf(b, TEAM_ENEMY, env) else None, SetAuto(b, env), env, h)
  {
    IsValid(b);
    hide PlayTurn, PlayOf, EndTurn, PlayerTurn, Tidy, Ends;
    Idle(b);
    HearNoRows(h, [AutoSet(b.auto)]);
    if b.auto && b.turnOpen && PlayerTurn(b) {
      var a := PlayTurn(b, TEAM_ENEMY, env);
      PlayAnswers(b, TEAM_ENEMY, env, h);
      AsideRows(h, AutoSet(b.auto), a.msgs);
      AnsweredAside(b, PlayOf(b, TEAM_ENEMY, env), a, SetAuto(b, env), env, h);
    }
  }

  lemma SwapAside(b: BattleState, i: nat, o: nat)
    requires ValidField(b.units) && SwapUnits(b, i, o).Some?
    ensures Untouched(b, SwapUnits(b, i, o).value)
  {
    hide Find, Swap;
  }

  /** The other requests touch no status, and their replies carry no status rows. */
  lemma OthersAside(b: BattleState, req: Request, env: Env)
    requires ValidField(b.units)
    requires !req.ReqNextWave? && !req.ReqJudge? && !req.ReqAttack? && !req.ReqAuto?
    ensures var a := Inner(b, req, env); Untouched(b, a.b) && forall k :: 0 <= k < |a.msgs| ==> NoRows(a.msgs[k])
  {
    hide Exchange, PlainMessages, OnWire, StatusesOf, Shows, PlayTurn, AdvanceWave, AnswerJudge, SetAuto, PlayerAttack, Untouched;
    Idle(b);
    FlagsAside(b);
    if req.ReqChangeChar? { ExchangeAside(b, req.incoming); } else { PlainRows(b, req); }
  }

  lemma FlagsAside(b: BattleState)
    requires ValidField(b.units)
    ensures forall open, begun, auto :: Untouched(b, b.(turnOpen := open, waveBegun := begun, auto := auto))
  {
  }

  lemma PlainRows(b: BattleState, req: Request)
    ensures forall k :: 0 <= k < |PlainMessages(b, req)| ==> NoRows(PlainMessages(b, req)[k])
  {
    hide Find;
  }

  lemma ExchangeAside(b: BattleState, incoming: nat)
    requires ValidField(b.units)
    ensures var a := Exchange(b, incoming); Untouched(b, a.b) && forall k :: 0 <= k < |a.msgs| ==> NoRows(a.msgs[k])
  {
    Idle(b);
    hide SwapUnits, Untouched;
    if Acting(b).Some? {
      var out := b.units[Acting(b).value].order;
      if SwapUnits(b, incoming, out).Some? { SwapAside(b, incoming, out); }
    }
  }

  lemma AutoFlag(b: BattleState, on: bool, e: Option<Ending>, a: Answer, env: Env, h: Held)
    requires Answers(b.(auto := on), e, a, env, h)
    ensures Answers(b, e, a, env, h)
  {
  }

  lemma InnerAnswers(b: BattleState, req: Request, env: Env, h: Held)
    requires Tidy(b) && !req.ReqNextWave?
    ensures Answers(b, InnerOf(b, req, env), Inner(b, req, env), env, h)
  {
    hide JudgeOf, PlayerOf, PlayOf, PlayerTurn, Answers, AnswerJudge, PlayerAttack, SetAuto;
    if req.ReqJudge? {
      JudgeAnswers(b, env, h);
    } else if req.ReqAttack? {
      PlayerAnswers(b, req.attacker, req.defender, req.key, env, h);
    } else if req.ReqAuto? {
      AutoAnswers(b.(auto := req.want != 0), env, h);
      AutoFlag(b, req.want != 0, InnerOf(b, req, env), Inner(b, req, env), env, h);
    } else {
      OthersAside(b, req, env);
      OthersAnswer(b, Inner(b, req, env), env, h);
    }
  }

  lemma OthersAnswer(b: BattleState, a: Answer, env: Env, h: Held)
    requires Untouched(b, a.b) && forall k :: 0 <= k < |a.msgs| ==> NoRows(a.msgs[k])
    ensures Answers(b, None, a, env, h)
  {
    HearNoRows(h, a.msgs);
  }

  lemma AnswerTidy(b: BattleState, e: Option<Ending>, a: Answer, env: Env, h: Held)
    requires Tidy(b) && Answers(b, e, a, env, h)
    ensures Tidy(a.b)
  {
    match e
    case None => UntouchedMoves(b, a.b);
    case Some(e) =>
      ClockMovesOn(e.after, env.fx);
      hide EndTurn;
      UntouchedMoves(EndTurn(e.after, env.fx), a.b);
  }

  lemma FlushedAnswers(b: BattleState, req: Request, env: Env, h: Held)
    requires Tidy(b) && !req.ReqNextWave?
    ensures Answers(b, InnerOf(b, req, env), Flushed(b, req, env), env, h)
  {
    IsValid(b);
    hide Inner, InnerOf, Answers, Drain, Tidy, Untouched;
    var a := Inner(b, req, env);
    InnerAnswers(b, req, env, h);
    if !AnyPopulates(a.msgs) {
      var w := Drain1(a.b);
      AnswerTidy(b, InnerOf(b, req, env), a, env, h);
      DeathsAside(a.b, w.kept);
      HearRowsAdds(h, SentMessages(w), a.msgs);
      HearNoRows(h, SentMessages(w));
      AnsweredAside(b, InnerOf(b, req, env), a, Flushed(b, req, env), env, h);
    }
  }

  lemma FewerDeaths(b: BattleState, ds: seq<DeathRow>, e: Option<Ending>, a: Answer, env: Env, h: Held)
    requires Answers(b.(deaths := ds), e, a, env, h)
    ensures Answers(b, e, a, env, h)
  {
  }

  /** ONE REQUEST OF A WAVE: statuses, queue and record stay as they are, or one attack moves them
      and a turn ends. */
  lemma ReplyAnswers(b: BattleState, req: Request, env: Env, h: Held)
    requires Tidy(b) && !req.ReqNextWave?
    ensures Answers(b, TurnOf(b, req, env), Reply(b, req, env), env, h)
  {
    IsValid(b);
    hide Flushed, InnerOf, Answers, Drain, Tidy, Untouched;
    if req.ReqJudge? && DeathQueued(b) {
      var w := Drain1(b);
      DeathsAside(b, w.kept);
      if w.sent != [] {
        OthersAnswer(b, Reply(b, req, env), env, h);
      } else {
        FlushedAnswers(b.(deaths := w.kept), req, env, h);
        FewerDeaths(b, w.kept, TurnOf(b, req, env), Reply(b, req, env), env, h);
      }
    } else {
      FlushedAnswers(b, req, env, h);
    }
  }

  // -- whole waves ------------------------------------------------------------------

  /** A request, what chance decides while it is served, and the statuses the client counts out
      by itself once it is answered. */
  datatype Beat = Beat(req: Request, env: Env, fades: set<Key>)

  /** The battle, the statuses the client holds, and everything that has changed since the last
      attack. */
  datatype Wave = Wave(b: BattleState, h: Held, gap: seq<Change>)

  ghost function Serve1(w: Wave, t: Beat): (w': Wave)
    requires ValidField(w.b.units)
    ensures ValidField(w'.b.units)
  {
    var a := Reply(w.b, t.req, t.env);
    Wave(a.b, HearRows(w.h, a.msgs) - t.fades,
         match TurnOf(w.b, t.req, t.env)
         case None => w.gap
         case Some(e) => TurnChanges(e.after, t.env.fx))
  }

  ghost function PlayWave(w: Wave, ts: seq<Beat>): (w': Wave)
    requires ValidField(w.b.units)
    ensures ValidField(w'.b.units)
    decreases |ts|
  {
    if ts == [] then w else Serve1(PlayWave(w, ts[..|ts| - 1]), ts[|ts| - 1])
  }

  /** The queue is the collapse of the changes since the last attack. */
  ghost predicate Tracks(w: Wave) {
    Tidy(w.b) && w.b.rows == QueueAll([], w.b.told, w.b.wave, w.gap)
  }

  ghost predicate OfOneWave(ts: seq<Beat>) {
    forall k :: 0 <= k < |ts| ==> !ts[k].req.ReqNextWave?
  }

  ghost predicate NoFades(ts: seq<Beat>) {
    forall k :: 0 <= k < |ts| ==> ts[k].fades == {}
  }

  lemma IdleServed(w: Wave, t: Beat)
    requires Tracks(w) && !t.req.ReqNextWave? && TurnOf(w.b, t.req, t.env).None?
    ensures var w' := Serve1(w, t);
            && Tracks(w') && w'.b.told == w.b.told && Untouched(w.b, w'.b) && w'.h == w.h - t.fades && w'.gap == w.gap
  {
    var a := Reply(w.b, t.req, t.env);
    ReplyAnswers(w.b, t.req, t.env, w.h);
    hide Reply, TurnOf;
    UntouchedMoves(w.b, a.b);
  }

  /** An attack is served: what it carries reaches the client and the record, and the gap begins
      anew with the turn that ends. */
  lemma TurnServed(w: Wave, t: Beat)
    requires Tracks(w) && !t.req.ReqNextWave? && TurnOf(w.b, t.req, t.env).Some?
    ensures var w' := Serve1(w, t); var e := TurnOf(w.b, t.req, t.env).value;
            && Tracks(w') && Ends(w.b, e, t.env.wireable) && Untouched(EndTurn(e.after, t.env.fx), w'.b)
            && w'.b.told == Tell(w.b.told, Sent(e, t.env.wireable))
            && w'.h == Play(w.h, Sent(e, t.env.wireable)) - t.fades && w'.gap == TurnChanges(e.after, t.env.fx)
  {
    var e := TurnOf(w.b, t.req, t.env).value;
    var a := Reply(w.b, t.req, t.env);
    ReplyAnswers(w.b, t.req, t.env, w.h);
    IsValid(w.b);
    hide Reply, TurnOf, Sent, TurnChanges, EndTurn, FieldMoves;
    EndTurnQueues(e.after, t.env.fx);
    ClockMovesOn(e.after, t.env.fx);
    UntouchedMoves(EndTurn(e.after, t.env.fx), a.b);
  }

  /** THE RECORD STAYS TRUE through any requests of a wave: the queue is the collapse of exactly
      what has changed since the last attack; and the record is what a client holds that played
      every status row sent, if it counts nothing out by itself. (A whole field sent on the way
      tells of statuses by other means, which the record does not count.) */
  lemma {:induction false} RecordIsTrue(w: Wave, ts: seq<Beat>)
    requires ValidField(w.b.units) && Tracks(w) && OfOneWave(ts)
    ensures Tracks(PlayWave(w, ts))
    ensures w.b.told == w.h.Keys && NoFades(ts) ==> PlayWave(w, ts).b.told == PlayWave(w, ts).h.Keys
    decreases |ts|
  {
    if ts != [] {
      var n := |ts| - 1;
      RecordIsTrue(w, ts[..n]);
      RecordOnce(PlayWave(w, ts[..n]), ts[n]);
    }
  }

  lemma RecordOnce(w: Wave, t: Beat)
    requires ValidField(w.b.units) && Tracks(w) && !t.req.ReqNextWave?
    ensures Tracks(Serve1(w, t))
    ensures w.b.told == w.h.Keys && t.fades == {} ==> Serve1(w, t).b.told == Serve1(w, t).h.Keys
  {
    var e := TurnOf(w.b, t.req, t.env);
    if e.None? {
      IdleServed(w, t);
    } else {
      TurnServed(w, t);
      if w.b.told == w.h.Keys { ToldIsHeld(w.b.told, w.h, Sent(e.value, t.env.wireable)); }
    }
    hide Serve1, TurnOf, Ends, Tracks;
  }

  // -- a wave opens -----------------------------------------------------------------

  /** A wave opens with nothing told, and queued is exactly what its roll aged off. */
  lemma WaveRecorded(b: BattleState, env: Env)
    requires ValidField(b.units) && Tidy(OpenWave(b, env))
    ensures var b' := AdvanceWave(b, env);
            && Tracks(Wave(b', map[], RollChanges(OpenWave(b, env).units))) && b'.told == {}
            && FieldMoves(OpenWave(b, env).units, b'.units, RollChanges(OpenWave(b, env).units))
  {
    var b1 := OpenWave(b, env);
    assert b1.rows == [] && b1.told == {} by { hide LandAll, BankAll, WaveMobs, OfTeam; }
    hide OpenWave, FieldMoves;
    RollMoves(b1, Roll(b1).round);
  }

  // -- the next attack --------------------------------------------------------------

  lemma {:induction false} OnWireLast(cs: seq<Change>, wireable: int -> bool, k: Key)
    ensures LastChange(OnWire(cs, wireable), k) == if wireable(k.1) then LastChange(cs, k) else None
    decreases |cs|
  {
    if cs != [] {
      var n := |cs| - 1;
      OnWireLast(cs[..n], wireable, k);
      var out := OnWire(cs[..n], wireable);
      assert (out + [cs[n]])[..|out|] == out && out + [] == out;
    }
  }

  lemma {:induction false} AllOfWave(told: set<Key>, wave: nat, cs: seq<Change>)
    ensures forall r :: r in QueueAll([], told, wave, cs) ==> r.wave == wave
    decreases |cs|
  {
    if cs != [] {
      AllOfWave(told, wave, cs[..|cs| - 1]);
      WithoutIs(QueueAll([], told, wave, cs[..|cs| - 1]), KeyOf(cs[|cs| - 1]));
    }
  }

  lemma {:induction false} OfWaveAll(rows: seq<Row>, wave: nat)
    requires forall r :: r in rows ==> r.wave == wave
    ensures OfWave(rows, wave) == Changes(rows)
  {
    if rows != [] {
      var n := |rows| - 1;
      assert rows[n] in rows && forall r :: r in rows[..n] ==> r in rows;
      OfWaveAll(rows[..n], wave);
      assert Changes(rows) == Changes(rows[..n]) + [rows[n].change];
    } else {
      assert Changes(rows) == [];
    }
  }

  /** A pair named by the attack's own rows and by the queue, with different outcomes. */
  predicate ClashAt(own: seq<Change>, queued: seq<Change>, k: Key) {
    LastChange(own, k).Some? && LastChange(queued, k).Some? &&
      Shown(LastChange(own, k).value) != Shown(LastChange(queued, k).value)
  }

  /** WHAT THE NEXT ATTACK TELLS, exactly: with the record true, an attack leaves a status the
      client knows showing what playing every change of the gap, and then the attack's own, in the
      order they happened would, if and only if the two do not name it with different outcomes. */
  lemma AttackCatchesUp(w: Wave, done: seq<Effect>, wireable: int -> bool, k: Key)
    requires Tracks(w) && w.b.told == w.h.Keys && wireable(k.1)
    ensures Look(Play(w.h, StatusOf(w.b, done, wireable)), k) == Look(Play(Play(w.h, w.gap), ChangesOf(done)), k)
       <==> !ClashAt(ChangesOf(done), Changes(w.b.rows), k)
  {
    hide Tidy;
    var own := ChangesOf(done);
    var rows := w.b.rows;
    AllOfWave(w.h.Keys, w.b.wave, w.gap);
    OfWaveAll(rows, w.b.wave);
    CollapseIsSound(w.h, w.b.wave, w.gap);
    OnWireLast(own, wireable, k);
    OnWireLast(Changes(rows), wireable, k);
    LastOfBoth(OnWire(own, wireable), OnWire(Changes(rows), wireable), k);
    LastWins(w.h, StatusOf(w.b, done, wireable), k);
    LastWins(Play(w.h, w.gap), own, k);
    LastWins(w.h, Changes(rows), k);
  }

  /** THE CLASH IS REAL: an attack that grants a status whose removal is still queued leaves it on
      the field and takes it from the client, which would hold it had it been told in order. */
  lemma RegrantLost(w: Wave, e: Ending, wireable: int -> bool, k: Key)
    requires Tracks(w) && w.b.told == w.h.Keys && Ends(w.b, e, wireable) && wireable(k.1)
    requires Lingers(w.gap, w.b.told, k) && LastChange(Own(e), k).Some? && LastChange(Own(e), k).value.applied
    ensures Bears(e.after.units, k) && k in Play(Play(w.h, w.gap), Own(e)) && k !in Play(w.h, Sent(e, wireable))
  {
    var done := Landed(e.before.units, e.es);
    assert Sent(e, wireable) == StatusOf(w.b, done, wireable);
    assert Bears(e.after.units, k) == Moved(Bears(w.b.units, k), Own(e), k);
    QueueHolds(w.b.told, w.b.wave, w.gap, k);
    LastOfRows(w.b.rows, k);
    hide Tidy, Bears, StatusOf, Sent, Landed;
    QueuedWins(w, done, wireable, k);
    LastWins(Play(w.h, w.gap), Own(e), k);
  }

  /** Of two rows for a pair, the queued one comes last. */
  lemma QueuedWins(w: Wave, done: seq<Effect>, wireable: int -> bool, k: Key)
    requires Tracks(w) && w.b.told == w.h.Keys && wireable(k.1) && LastChange(Changes(w.b.rows), k).Some?
    ensures Look(Play(w.h, StatusOf(w.b, done, wireable)), k) == Shown(LastChange(Changes(w.b.rows), k).value)
  {
    hide Tidy;
    AllOfWave(w.h.Keys, w.b.wave, w.gap);
    OfWaveAll(w.b.rows, w.b.wave);
    OnWireLast(Changes(w.b.rows), wireable, k);
    LastOfBoth(OnWire(ChangesOf(done), wireable), OnWire(Changes(w.b.rows), wireable), k);
    LastWins(w.h, StatusOf(w.b, done, wireable), k);
  }

  /** Such an attack: its skill grants the status, and a unit is there to take it. */
  lemma GrantIsOwn(b: BattleState, k: Key, st: Active)
    requires Find(b.units, k.0).Some? && st.id == k.1
    ensures var cs := ChangesOf(Landed(b.units, [Grant(k.0, st)])); cs == [Change(k.0, k.1, true, st.remaining)]
    ensures LastChange([Change(k.0, k.1, true, st.remaining)], k) == Some(Change(k.0, k.1, true, st.remaining))
  {
    var e := Grant(k.0, st);
    assert [e][..0] == [] && [e][0] == e;
    assert Landed(b.units, [e]) == [e];
  }
}
