/** What every reply respects: one command per reply, one death per judge, and no wave ended
    with news still queued. */
module Delivery {
  import opened Wrappers
  import opened Units
  import opened TurnQueue
  import opened Turns
  import opened Outbound
  import opened Replies

  // -- one command slot -------------------------------------------------------------

  function Pushes(ms: seq<Message>): nat {
    if ms == [] then 0 else Pushes(ms[..|ms| - 1]) + if Populates(ms[|ms| - 1]) then 1 else 0
  }

  ghost predicate FitsSlot(ms: seq<Message>) {
    Pushes(ms) <= 1 || ms == [WaveBegin, StartTurn]
  }

  lemma {:induction false} PushesAdd(a: seq<Message>, b: seq<Message>)
    ensures Pushes(a + b) == Pushes(a) + Pushes(b)
    decreases |b|
  {
    if b == [] {
      assert a + b == a;
    } else {
      PushesAdd(a, b[..|b| - 1]);
      assert (a + b)[..|a + b| - 1] == a + b[..|b| - 1];
    }
  }

  lemma {:induction false} NoPushes(ms: seq<Message>)
    ensures Pushes(ms) == 0 <==> !AnyPopulates(ms)
  {
    if ms != [] {
      var n := |ms| - 1;
      NoPushes(ms[..n]);
      if AnyPopulates(ms[..n]) {
        var k :| 0 <= k < n && Populates(ms[..n][k]);
        assert Populates(ms[k]);
      }
      if AnyPopulates(ms) && !Populates(ms[n]) {
        var k :| 0 <= k < |ms| && Populates(ms[k]);
        assert Populates(ms[..n][k]);
      }
    }
  }

  lemma OnePush(m: Message)
    ensures Pushes([m]) <= 1 && (!Populates(m) ==> Pushes([m]) == 0)
  {
    assert [m][..0] == [];
  }

  lemma PlayTurnFits(b: BattleState, team: int, env: Env)
    requires ValidField(b.units)
    ensures Pushes(PlayTurn(b, team, env).msgs) <= 1
  {
    var m := AutoMove(b, team, env);
    if m.Some? {
      var s := ResolveSkill(b, m.value.attacker, m.value.defender, m.value.slot, env);
      OnePush(s.1);
    }
  }

  lemma Behind(m: Message, ms: seq<Message>)
    requires !Populates(m) && Pushes(ms) <= 1
    ensures Pushes([m] + ms) <= 1
  {
    PushesAdd([m], ms);
    OnePush(m);
  }

  lemma SentFits(w: Drained)
    requires |w.sent| <= 1
    ensures Pushes(SentMessages(w)) <= 1
  {
    if w.sent != [] {
      assert SentMessages(w) == [AttackOf(w.sent[0])];
      OnePush(AttackOf(w.sent[0]));
    }
  }

  lemma DrainsOne(b: BattleState)
    ensures |Drain1(b).sent| <= 1
  {
    WalkLimits(b, DeathsFirst(b.deaths), Some(1));
  }

  lemma JudgeFits(b: BattleState, env: Env)
    requires ValidField(b.units)
    ensures Pushes(AnswerJudge(b, env).msgs) <= 1
  {
    hide PlayTurn;
    if Decided(b) {
      DrainsOne(b);
      SentFits(Drain1(b));
      OnePush(WaveEnd(!TeamAlive(b.units, TEAM_ENEMY) || env.stage.bossBook, b.wave));
    } else if PlayerTurn(b) {
      OnePush(Judge);
      if b.auto {
        PlayTurnFits(b, TEAM_ENEMY, env);
        Behind(Judge, PlayTurn(b, TEAM_ENEMY, env).msgs);
      }
    } else {
      PlayTurnFits(b, TEAM_PLAYER, env);
    }
  }

  lemma {:induction false} SyncsFit(n: nat)
    ensures Pushes(seq(n, _ => Push)) == 0
  {
    NoPushes(seq(n, _ => Push));
  }

  lemma OpenTurnFits(b: BattleState)
    ensures FitsSlot(OpenTurn(b).msgs)
  {
    OnePush(StartTurn);
  }

  lemma AutoFits(b: BattleState, env: Env)
    requires ValidField(b.units)
    ensures Pushes(SetAuto(b, env).msgs) <= 1
  {
    hide PlayTurn;
    OnePush(AutoSet(b.auto));
    PlayTurnFits(b, TEAM_ENEMY, env);
    Behind(AutoSet(b.auto), PlayTurn(b, TEAM_ENEMY, env).msgs);
  }

  lemma InnerFits(b: BattleState, req: Request, env: Env)
    requires ValidField(b.units)
    ensures FitsSlot(Inner(b, req, env).msgs)
  {
    hide PlayerAttack, AdvanceWave, AnswerJudge, OpenTurn, SwapUnits, SetAuto;
    match req
    case ReqReady(auto) => OpenTurnFits(if auto.Some? then b.(auto := auto.value != 0) else b);
    case ReqStartTurn => OpenTurnFits(b);
    case ReqJudge => JudgeFits(b, env);
    case ReqAuto(want) => AutoFits(b.(auto := want != 0), env);
    case ReqBattleEnd(n) => SyncsFit(n);
    case ReqSelectRune(kept) => NoPushes(Inner(b, req, env).msgs);
    case ReqAttack(at, de, key) => AttackFits(b, at, de, key, env);
    case _ => SinglesFit(b, req, env);
  }

  lemma AttackFits(b: BattleState, at: nat, de: nat, key: int, env: Env)
    requires ValidField(b.units)
    ensures Pushes(PlayerAttack(b, at, de, key, env).msgs) <= 1
  {
    var slot := SlotFor(b, at, key);
    OnePush(ResolveSkill(SpendSkill(b, at, slot), at, de, slot, env).1);
  }

  lemma SinglesFit(b: BattleState, req: Request, env: Env)
    requires ValidField(b.units)
    requires req.ReqNextWave? || req.ReqRetreat? || req.ReqCharInfo? || req.ReqChangeChar? || req.ReqReconnect?
          || req.ReqReplay? || req.ReqReportError? || req.ReqOther?
    ensures Pushes(Inner(b, req, env).msgs) == 0
  {
    hide AdvanceWave;
    NoPushes(Inner(b, req, env).msgs);
  }

  lemma FlushedFits(b: BattleState, req: Request, env: Env)
    requires ValidField(b.units)
    ensures FitsSlot(Flushed(b, req, env).msgs)
  {
    InnerFits(b, req, env);
    hide Inner;
    var a := Inner(b, req, env);
    NoPushes(a.msgs);
    if !AnyPopulates(a.msgs) {
      DrainsOne(a.b);
      SentFits(Drain1(a.b));
      PushesAdd(SentMessages(Drain1(a.b)), a.msgs);
    }
  }

  /** ONE COMMAND SLOT: no reply carries two messages that replace the client's command,
      except the pair that opens a wave. */
  lemma OneCommand(b: BattleState, req: Request, env: Env)
    requires ValidField(b.units)
    ensures FitsSlot(Reply(b, req, env).msgs)
  {
    var w := Drain1(b);
    var b' := b.(deaths := w.kept);
    DrainsOne(b);
    SentFits(w);
    FlushedFits(b, req, env);
    FlushedFits(b', req, env);
  }

  // -- one death for each judge -----------------------------------------------------

  /** The deaths the client can still be told of, in queue order. */
  function Due(b: BattleState, ds: seq<DeathRow>): seq<DeathRow> {
    if ds == [] then []
    else (if ds[0].die && Deliverable(b, ds[0]) then [ds[0]] else []) + Due(b, ds[1..])
  }

  function DueDeaths(b: BattleState): seq<DeathRow> {
    Due(b, b.deaths)
  }

  lemma {:induction false} DueAppend(b: BattleState, ds: seq<DeathRow>, es: seq<DeathRow>)
    ensures Due(b, ds + es) == Due(b, ds) + Due(b, es)
  {
    if ds == [] {
      assert ds + es == es;
    } else {
      DueAppend(b, ds[1..], es);
      assert (ds + es)[1..] == ds[1..] + es && (ds + es)[0] == ds[0];
      hide Deliverable;
    }
  }

  lemma {:induction false} DueOfTicks(b: BattleState, ds: seq<DeathRow>)
    ensures Due(b, Only(ds, false)) == [] && Due(b, Only(ds, true)) == Due(b, ds)
  {
    if ds != [] {
      DueOfTicks(b, ds[1..]);
      DueAppend(b, if ds[0].die then [ds[0]] else [], Only(ds[1..], true));
      DueAppend(b, if ds[0].die then [] else [ds[0]], Only(ds[1..], false));
    }
  }

  /** Sorting deaths to the front does not reorder the deaths. */
  lemma DueUnsorted(b: BattleState)
    ensures Due(b, DeathsFirst(b.deaths)) == DueDeaths(b)
  {
    DueOfTicks(b, b.deaths);
    DueAppend(b, Only(b.deaths, true), Only(b.deaths, false));
  }

  ghost predicate FatalFirst(ds: seq<DeathRow>) {
    forall i, j :: 0 <= i < j < |ds| && ds[j].die ==> ds[i].die
  }

  lemma DeathsFirstIs(ds: seq<DeathRow>)
    ensures FatalFirst(DeathsFirst(ds))
  {
    OnlyIs(ds, true);
    OnlyIs(ds, false);
  }

  lemma {:induction false} DueIsFatal(b: BattleState, ds: seq<DeathRow>)
    requires Due(b, ds) != []
    ensures exists j :: 0 <= j < |ds| && ds[j].die
  {
    if !(ds[0].die && Deliverable(b, ds[0])) {
      DueIsFatal(b, ds[1..]);
      var j :| 0 <= j < |ds[1..]| && ds[1..][j].die;
      assert ds[j + 1].die;
    }
  }

  /** A one-row walk over a queue with its deaths in front takes the first due death. */
  lemma {:induction false} WalkTakesDue(b: BattleState, ds: seq<DeathRow>)
    requires FatalFirst(ds) && Due(b, ds) != []
    ensures Walk(b, ds, Some(1)).sent == [Due(b, ds)[0]]
    ensures Due(b, Walk(b, ds, Some(1)).kept) == Due(b, ds)[1..]
  {
    DueIsFatal(b, ds);
    assert ds[0].die;
    if !Deliverable(b, ds[0]) {
      assert FatalFirst(ds[1..]) by {
        forall i, j | 0 <= i < j < |ds[1..]| && ds[1..][j].die ensures ds[1..][i].die {
          assert ds[1..][j] == ds[j + 1] && ds[1..][i] == ds[i + 1];
        }
      }
      WalkTakesDue(b, ds[1..]);
    }
  }

  lemma DrainTakesDue(b: BattleState)
    requires DueDeaths(b) != []
    ensures Drain1(b).sent == [DueDeaths(b)[0]]
    ensures DueDeaths(b.(deaths := Drain1(b).kept)) == DueDeaths(b)[1..]
  {
    DueUnsorted(b);
    DeathsFirstIs(b.deaths);
    WalkTakesDue(b, DeathsFirst(b.deaths));
    SameDue(b, b.(deaths := Drain1(b).kept), Drain1(b).kept);
  }

  lemma {:induction false} SameDue(b: BattleState, b': BattleState, ds: seq<DeathRow>)
    requires b'.units == b.units && b'.wave == b.wave && b'.tellNonFatal == b.tellNonFatal
    ensures Due(b', ds) == Due(b, ds)
  {
    if ds != [] { SameDue(b, b', ds[1..]); }
  }

  /** A judge with deaths due is answered by the first of them, alone, and changes nothing else. */
  lemma JudgeDelivers(b: BattleState, env: Env)
    requires ValidField(b.units) && DueDeaths(b) != []
    ensures var a := Reply(b, ReqJudge, env);
            && a.msgs == [AttackOf(DueDeaths(b)[0])]
            && a.b == b.(deaths := a.b.deaths)
            && DueDeaths(a.b) == DueDeaths(b)[1..]
  {
    hide Flushed;
    DrainTakesDue(b);
    DueIsFatal(b, b.deaths);
    assert DeathQueued(b);
    assert SentMessages(Drain1(b)) == [AttackOf(DueDeaths(b)[0])];
  }

  datatype Judged = Judged(b: BattleState, replies: seq<seq<Message>>)

  ghost function Judges(b: BattleState, k: nat, env: Env): (j: Judged)
    requires ValidField(b.units)
    ensures ValidField(j.b.units)
  {
    if k == 0 then Judged(b, [])
    else
      var j := Judges(b, k - 1, env);
      var a := Reply(j.b, ReqJudge, env);
      Judged(a.b, j.replies + [a.msgs])
  }

  function OneEach(ds: seq<DeathRow>): (r: seq<seq<Message>>)
    ensures |r| == |ds|
  {
    seq(|ds|, k requires 0 <= k < |ds| => [AttackOf(ds[k])])
  }

  /** BOUNDED DELIVERY: with `k` deaths due, the next `k` judges return exactly those deaths,
      one a reply and in queue order; nothing else in the fight moves. */
  lemma {:induction false} BoundedDelivery(b: BattleState, k: nat, env: Env)
    requires ValidField(b.units) && k <= |DueDeaths(b)|
    ensures var j := Judges(b, k, env);
            && j.replies == OneEach(DueDeaths(b)[..k])
            && j.b == b.(deaths := j.b.deaths)
            && DueDeaths(j.b) == DueDeaths(b)[k..]
  {
    hide Reply, DueDeaths, AttackOf;
    if k > 0 {
      BoundedDelivery(b, k - 1, env);
      var j := Judges(b, k - 1, env);
      JudgeDelivers(j.b, env);
      assert OneEach(DueDeaths(b)[..k]) == OneEach(DueDeaths(b)[..k - 1]) + [[AttackOf(DueDeaths(b)[k - 1])]];
    }
  }

  // -- the end of a wave ------------------------------------------------------------

  predicate EndsWave(ms: seq<Message>) {
    exists k :: 0 <= k < |ms| && ms[k].WaveEnd?
  }

  lemma NoEndInPlay(b: BattleState, team: int, env: Env)
    requires ValidField(b.units)
    ensures !EndsWave(PlayTurn(b, team, env).msgs)
  {
    hide EndTurn;
  }

  lemma InnerEndsWave(b: BattleState, req: Request, env: Env)
    requires ValidField(b.units) && EndsWave(Inner(b, req, env).msgs)
    ensures Inner(b, req, env).b.deaths == []
  {
    hide PlayTurn, AdvanceWave, EndTurn;
    NoEndInPlay(b, TEAM_ENEMY, env);
    NoEndInPlay(b, TEAM_PLAYER, env);
    if req.ReqAuto? { NoEndInPlay(b.(auto := req.want != 0), TEAM_ENEMY, env); }
    if req.ReqJudge? && Decided(b) { DeathsGoFirst(b); }
  }

  /** A WAVE ENDS WITH NOTHING LEFT TO TELL: a reply that ends the wave leaves no row queued. */
  lemma WaveEndsEmpty(b: BattleState, req: Request, env: Env)
    requires ValidField(b.units) && EndsWave(Reply(b, req, env).msgs)
    ensures Reply(b, req, env).b.deaths == []
  {
    var b' := if req.ReqJudge? && DeathQueued(b) then b.(deaths := Drain1(b).kept) else b;
    var a := Inner(b', req, env);
    hide Inner;
    if req.ReqJudge? && DeathQueued(b) && Drain1(b).sent != [] {
    } else {
      FlushEnds(b', req, env);
    }
  }

  lemma FlushEnds(b: BattleState, req: Request, env: Env)
    requires ValidField(b.units) && EndsWave(Flushed(b, req, env).msgs)
    ensures Flushed(b, req, env).b.deaths == []
  {
    var a := Inner(b, req, env);
    var ms := Flushed(b, req, env).msgs;
    hide Inner;
    if !AnyPopulates(a.msgs) {
      EndBehind(Drain1(a.b), a.msgs);
    }
    InnerEndsWave(b, req, env);
    hide Drain1;
    if !AnyPopulates(a.msgs) {
      NothingToDrain(a.b);
    }
  }

  lemma EndBehind(w: Drained, ms: seq<Message>)
    requires EndsWave(SentMessages(w) + ms)
    ensures EndsWave(ms)
  {
    var all := SentMessages(w) + ms;
    var k :| 0 <= k < |all| && all[k].WaveEnd?;
    assert ms[k - |w.sent|].WaveEnd?;
  }

  lemma NothingToDrain(b: BattleState)
    requires b.deaths == []
    ensures Drain1(b).kept == [] && Drain1(b).sent == []
  {
  }

  // -- never silent -----------------------------------------------------------------

  lemma {:induction false} FoeFound(us: seq<UnitState>, team: int)
    ensures FirstFoe(us, team).Some? <==> TeamAlive(us, team)
  {
    if us != [] {
      FoeFound(us[1..], team);
      if TeamAlive(us[1..], team) {
        var i :| 0 <= i < |us[1..]| && us[1..][i].team == team && Alive(us[1..][i]);
        assert us[i + 1].team == team && Alive(us[i + 1]);
      }
      if TeamAlive(us, team) && !(us[0].team == team && Alive(us[0])) {
        var i :| 0 <= i < |us| && us[i].team == team && Alive(us[i]);
        assert us[1..][i - 1] == us[i];
      }
    }
  }

  lemma PlaysSomething(b: BattleState, team: int, env: Env)
    requires ValidField(b.units) && Acting(b).Some? && TeamAlive(b.units, team)
    ensures PlayTurn(b, team, env).msgs != []
  {
    FoeFound(b.units, team);
    hide EndTurn;
  }

  lemma JudgeSaysSomething(b: BattleState, env: Env)
    requires ValidField(b.units) && (Acting(b).Some? || Decided(b))
    ensures AnswerJudge(b, env).msgs != []
  {
    hide PlayTurn;
    if !Decided(b) {
      PlaysSomething(b, TEAM_PLAYER, env);
    }
  }

  lemma FlushSaysSomething(b: BattleState, env: Env)
    requires ValidField(b.units) && (Acting(b).Some? || Decided(b))
    ensures Flushed(b, ReqJudge, env).msgs != []
  {
    JudgeSaysSomething(b, env);
    hide AnswerJudge;
    assert Inner(b, ReqJudge, env).msgs != [];
  }

  /** SOFT-LOCK FREEDOM: a battle with somebody seated, or decided, answers every judge. */
  lemma JudgeIsAnswered(b: BattleState, env: Env)
    requires ValidField(b.units) && (Acting(b).Some? || Decided(b))
    ensures Reply(b, ReqJudge, env).msgs != []
  {
    hide Flushed, Decided;
    FlushSaysSomething(b, env);
    if DeathQueued(b) && Drain1(b).sent == [] {
      SameStanding(b, Drain1(b).kept);
      FlushSaysSomething(b.(deaths := Drain1(b).kept), env);
    }
  }

  lemma SameStanding(b: BattleState, ds: seq<DeathRow>)
    ensures Decided(b.(deaths := ds)) == Decided(b) && Acting(b.(deaths := ds)) == Acting(b)
  {
  }
}
