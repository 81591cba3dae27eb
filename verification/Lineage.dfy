/** What a whole battle keeps: the same builds in the same places while a wave lasts, and the
    banked totals until it changes. */
module Lineage {
  import opened Units
  import opened TurnQueue
  import opened Turns
  import opened News
  import opened Outbound
  import opened Replies
  import opened Delivery
  import opened Sessions

  ghost predicate SameBuilds(us: seq<UnitState>, us': seq<UnitState>) {
    |us'| == |us| && forall i :: 0 <= i < |us| ==> SameBuild(us[i], us'[i])
  }

  /** The two states are of one wave of one battle. */
  ghost predicate Kin(b: BattleState, b': BattleState) {
    && SameBuilds(b.units, b'.units)
    && b'.wave == b.wave && b'.waveMax == b.waveMax && b'.tellNonFatal == b.tellNonFatal && b'.totals == b.totals
  }

  lemma KinSelf(b: BattleState)
    ensures Kin(b, b)
  {
  }

  lemma KinOn(b: BattleState, b1: BattleState, b2: BattleState)
    requires Kin(b, b1) && Kin(b1, b2)
    ensures Kin(b, b2)
  {
  }

  lemma FollowsKin(b: BattleState, b': BattleState)
    requires Follows(b, b')
    ensures Kin(b, b')
  {
  }

  lemma BuildsDistinct(us: seq<UnitState>, us': seq<UnitState>)
    requires SameBuilds(us, us') && DistinctOrders(us)
    ensures DistinctOrders(us')
  {
  }

  // -- every request but the next wave ----------------------------------------------

  lemma ResolveKin(b: BattleState, at: nat, de: nat, slot: int, env: Env)
    ensures Kin(b, ResolveSkill(b, at, de, slot, env).0)
  {
    LandAllKeeps(b.units, if Find(b.units, at).Some? then env.resolve(b, at, de, slot) else []);
  }

  lemma EndTurnKin(b: BattleState, fx: Passives)
    requires ValidField(b.units) && DistinctOrders(b.units)
    ensures Kin(b, EndTurn(b, fx))
  {
    EndTurnFollows(b, fx);
    hide EndTurn;
    FollowsKin(b, EndTurn(b, fx));
  }

  lemma SpendKin(b: BattleState, at: nat, slot: int)
    ensures Kin(b, SpendSkill(b, at, slot))
  {
  }

  lemma PlayTurnKin(b: BattleState, team: int, env: Env)
    requires ValidField(b.units) && DistinctOrders(b.units)
    ensures Kin(b, PlayTurn(b, team, env).b)
  {
    var m := AutoMove(b, team, env);
    if m.Some? {
      var at, de, slot := m.value.attacker, m.value.defender, m.value.slot;
      var b1 := ResolveSkill(b, at, de, slot, env).0;
      var b2 := SpendSkill(b1, at, slot);
      ResolveKin(b, at, de, slot, env);
      ResolveValid(b, at, de, slot, env);
      SpendKin(b1, at, slot);
      SpendSkillValid(b1, at, slot);
      hide ResolveSkill, SpendSkill, EndTurn, Kin;
      KinOn(b, b1, b2);
      KinDistinct(b, b2);
      EndTurnKin(b2, env.fx);
      KinOn(b, b2, EndTurn(b2, env.fx));
    } else {
      KinSelf(b);
    }
  }

  lemma KinDistinct(b: BattleState, b': BattleState)
    requires Kin(b, b') && DistinctOrders(b.units)
    ensures DistinctOrders(b'.units)
  {
    BuildsDistinct(b.units, b'.units);
  }

  lemma PlayerAttackKin(b: BattleState, at: nat, de: nat, key: int, env: Env)
    requires ValidField(b.units) && DistinctOrders(b.units)
    ensures Kin(b, PlayerAttack(b, at, de, key, env).b)
  {
    var slot := SlotFor(b, at, key);
    var b1 := SpendSkill(b, at, slot);
    SpendKin(b, at, slot);
    SpendSkillValid(b, at, slot);
    var b2 := ResolveSkill(b1, at, de, slot, env).0;
    ResolveKin(b1, at, de, slot, env);
    ResolveValid(b1, at, de, slot, env);
    hide ResolveSkill, SpendSkill, EndTurn, Kin, SlotFor;
    KinOn(b, b1, b2);
    KinDistinct(b, b2);
    EndTurnKin(b2, env.fx);
    KinOn(b, b2, EndTurn(b2, env.fx));
  }

  lemma SwapKin(b: BattleState, incoming: nat, outgoing: nat)
    ensures SwapUnits(b, incoming, outgoing).Some? ==> Kin(b, SwapUnits(b, incoming, outgoing).value)
  {
  }

  lemma JudgeKin(b: BattleState, env: Env)
    requires ValidField(b.units) && DistinctOrders(b.units)
    ensures Kin(b, AnswerJudge(b, env).b)
  {
    PlayTurnKin(b, TEAM_ENEMY, env);
    PlayTurnKin(b, TEAM_PLAYER, env);
    KinSelf(b);
    EndWaveKin(b, env.stage);
    hide PlayTurn, EndWave, Kin, Decided, PlayerTurn;
  }

  lemma EndWaveKin(b: BattleState, stage: Stage)
    ensures Kin(b, EndWave(b, stage).b)
  {
    hide Drain, TeamAlive;
  }

  lemma FlagsKin(b: BattleState, open: bool, begun: bool, auto: bool)
    ensures Kin(b, b.(turnOpen := open, waveBegun := begun, auto := auto))
  {
  }

  lemma OpenTurnKin(b: BattleState)
    ensures Kin(b, OpenTurn(b).b)
  {
  }

  lemma InnerKin(b: BattleState, req: Request, env: Env)
    requires ValidField(b.units) && DistinctOrders(b.units) && !req.ReqNextWave?
    ensures Kin(b, Inner(b, req, env).b)
  {
    hide PlayTurn, SwapUnits, PlayerAttack, AdvanceWave, AnswerJudge, OpenTurn, Kin;
    KinSelf(b);
    match req
    case ReqReady(auto) =>
      var b1 := if auto.Some? then b.(auto := auto.value != 0) else b;
      FlagsKin(b, b.turnOpen, b.waveBegun, b1.auto);
      OpenTurnKin(b1);
      KinOn(b, b1, OpenTurn(b1).b);
    case ReqStartTurn => OpenTurnKin(b);
    case ReqJudge => JudgeKin(b, env);
    case ReqAttack(at, de, key) => PlayerAttackKin(b, at, de, key, env);
    case ReqAuto(want) =>
      var b1 := b.(auto := want != 0);
      FlagsKin(b, b.turnOpen, b.waveBegun, want != 0);
      PlayTurnKin(b1, TEAM_ENEMY, env);
      KinOn(b, b1, PlayTurn(b1, TEAM_ENEMY, env).b);
    case ReqChangeChar(o) =>
      if Acting(b).Some? { SwapKin(b, o, b.units[Acting(b).value].order); }
    case ReqReconnect(_) => FlagsKin(b, false, b.waveBegun, b.auto);
    case _ =>
  }

  lemma DrainKin(b: BattleState, ds: seq<DeathRow>)
    ensures Kin(b, b.(deaths := ds))
  {
  }

  /** A WAVE KEEPS ITS FIELD: whatever is asked, short of the next wave, the same builds stand
      in the same places, and no banked total moves. */
  lemma ReplyKin(b: BattleState, req: Request, env: Env)
    requires ValidField(b.units) && DistinctOrders(b.units) && !req.ReqNextWave?
    ensures Kin(b, Reply(b, req, env).b)
  {
    var w := Drain1(b);
    var b1 := if req.ReqJudge? && DeathQueued(b) then b.(deaths := w.kept) else b;
    hide Inner, Drain, Kin;
    KinSelf(b);
    DrainKin(b, w.kept);
    InnerKin(b1, req, env);
    var b2 := Inner(b1, req, env).b;
    KinOn(b, b1, b2);
    DrainKin(b2, Drain1(b2).kept);
    KinOn(b, b2, b2.(deaths := Drain1(b2).kept));
  }

  // -- the next wave ----------------------------------------------------------------

  lemma OpenWaveBuilds(b: BattleState, env: Env)
    ensures SameBuilds(NewField(b, env), OpenWave(b, env).units)
  {
    OpenWaveKeepsRoster(b, env);
    hide OpenWave, NewField;
  }

  lemma RollKin(b: BattleState)
    requires ValidField(b.units)
    ensures Kin(b, Roll(b)) && Roll(b).deaths == b.deaths
  {
    RollFollows(b);
    RollAddsNothing(b);
    hide Roll;
    FollowsKin(b, Roll(b));
  }

  lemma OpenWaveKeeps(b: BattleState, env: Env)
    ensures var b' := OpenWave(b, env);
            b'.totals == BankAll(b.totals, OfTeam(b.units, TEAM_ENEMY)) && b'.deaths == []
            && b'.wave == b.wave + 1 && b'.waveMax == b.waveMax && b'.tellNonFatal == b.tellNonFatal
  {
    hide LandAll, BankAll, OfTeam, WaveMobs;
  }

  /** THE NEXT WAVE: the party stays, the new wave's mobs stand behind it, the outgoing enemies
      are banked, and nothing queued is carried over. */
  lemma AdvanceKeeps(b: BattleState, env: Env)
    requires ValidField(b.units)
    ensures var b' := AdvanceWave(b, env);
            && SameBuilds(NewField(b, env), b'.units)
            && b'.totals == BankAll(b.totals, OfTeam(b.units, TEAM_ENEMY))
            && b'.wave == b.wave + 1 && b'.waveMax == b.waveMax && b'.tellNonFatal == b.tellNonFatal
            && b'.deaths == []
  {
    OpenWaveValid(b, env);
    OpenWaveBuilds(b, env);
    OpenWaveKeeps(b, env);
    RollKin(OpenWave(b, env));
    hide OpenWave, Roll, NewField;
  }

  lemma NextWaveServed(b: BattleState, env: Env)
    requires ValidField(b.units)
    ensures Reply(b, ReqNextWave, env) == Answer(AdvanceWave(b, env), [NextWaveMsg(AdvanceWave(b, env))])
  {
    hide *;
    AdvanceKeeps(b, env);
    NextWaveFlushed(b, env);
    var b' := AdvanceWave(b, env);
    NothingToDrain(b');
    NothingBefore(Drain1(b'), [NextWaveMsg(b')]);
    assert b'.(deaths := []) == b';
  }

  lemma NextWaveFlushed(b: BattleState, env: Env)
    requires ValidField(b.units)
    ensures var b' := AdvanceWave(b, env); var w := Drain1(b');
            Reply(b, ReqNextWave, env) == Answer(b'.(deaths := w.kept), SentMessages(w) + [NextWaveMsg(b')])
  {
    hide AdvanceWave, Drain, NextWaveMsg, SentMessages;
    var b' := AdvanceWave(b, env);
    assert Inner(b, ReqNextWave, env) == Answer(b', [NextWaveMsg(b')]);
    assert NextWaveMsg(b').NextWave? by { NextWaveIs(b'); }
    hide Inner;
  }

  lemma NextWaveIs(b: BattleState)
    ensures NextWaveMsg(b).NextWave?
  {
  }

  lemma NothingBefore(w: Drained, ms: seq<Message>)
    requires w.sent == []
    ensures SentMessages(w) + ms == ms
  {
  }
}
