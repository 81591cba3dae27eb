/** The server's side of a battle: requests answered by working on the battle object, and a
    saved battle rebuilt. Each method answers, and leaves the battle, as its specification says. */
module BattleServer {
  import opened Wrappers
  import opened Units
  import opened TurnQueue
  import opened Turns
  import opened Outbound
  import opened Replies
  import opened Reach
  import opened Resume
  import opened BattleSteps
  import opened Battlefield

  /** The acting unit's move, played by the server: one attack, and then the turn ends. */
  method PlayTurnMsgs(battle: Battle, team: int, env: Env) returns (msgs: seq<Message>)
    requires battle.Valid()
    modifies battle, battle.units
    ensures battle.Valid() && battle.units == old(battle.units)
    ensures Answer(battle.State(), msgs) == PlayTurn(old(battle.State()), team, env)
  {
    hide Battle.State, Battle.Valid, ResolveSkill, Replies.SpendSkill, Turns.EndTurn, AutoMove;
    var move := AutoMove(battle.State(), team, env);
    if move.None? { return []; }
    var m := move.value;
    var body := battle.AttackCmd(m.attacker, m.defender, m.slot, env);
    battle.SpendSkill(m.attacker, m.slot);
    battle.EndTurn(env.fx);
    msgs := [body];
  }

  /** The player's attack; a slot that is not usable falls back to the basic attack. */
  method AttackMsgs(battle: Battle, attacker: nat, defender: nat, key: int, env: Env) returns (msgs: seq<Message>)
    requires battle.Valid()
    modifies battle, battle.units
    ensures battle.Valid() && battle.units == old(battle.units)
    ensures Answer(battle.State(), msgs) == PlayerAttack(old(battle.State()), attacker, defender, key, env)
  {
    hide Battle.State, Battle.Valid, ResolveSkill, Replies.SpendSkill, Turns.EndTurn, SlotFor;
    var slot := SlotFor(battle.State(), attacker, key);
    battle.SpendSkill(attacker, slot);
    var body := battle.AttackCmd(attacker, defender, slot, env);
    battle.EndTurn(env.fx);
    msgs := [body];
  }

  /** Take one queued loss, as the attack that shows it. */
  method FlushMsgs(battle: Battle) returns (msgs: seq<Message>)
    requires battle.Valid()
    modifies battle
    ensures battle.Valid() && battle.units == old(battle.units)
    ensures battle.State() == old(battle.State()).(deaths := Drain1(old(battle.State())).kept)
    ensures msgs == SentMessages(Drain1(old(battle.State())))
  {
    hide Battle.State, Battle.Valid, Drain;
    var sent := battle.DotDeathCmds(Some(1));
    msgs := seq(|sent|, k requires 0 <= k < |sent| => AttackOf(sent[k]));
  }

  /** Open the turn, and the wave before it if that is still to do; an open turn gets nothing. */
  method OpenMsgs(battle: Battle) returns (msgs: seq<Message>)
    requires battle.Valid()
    modifies battle
    ensures battle.Valid() && battle.units == old(battle.units)
    ensures Answer(battle.State(), msgs) == Replies.OpenTurn(old(battle.State()))
  {
    if battle.turnOpen { return []; }
    msgs := if battle.waveBegun then [StartTurn] else [WaveBegin, StartTurn];
    battle.OpenTurn();
  }

  method EndWaveMsgs(battle: Battle, stage: Stage) returns (msgs: seq<Message>)
    requires battle.Valid()
    modifies battle
    ensures battle.Valid() && battle.units == old(battle.units)
    ensures Answer(battle.State(), msgs) == EndWave(old(battle.State()), stage)
  {
    hide Battle.State, Battle.Valid, Drain, TeamAlive;
    var win := !TeamAlive(battle.State().units, TEAM_ENEMY) || stage.bossBook;
    var wave := battle.State().wave;
    var deaths := FlushMsgs(battle);
    msgs := if deaths != [] then deaths else [WaveEnd(win, wave)];
  }

  method JudgeMsgs(battle: Battle, env: Env) returns (msgs: seq<Message>)
    requires battle.Valid()
    modifies battle, battle.units
    ensures battle.Valid() && battle.units == old(battle.units)
    ensures Answer(battle.State(), msgs) == AnswerJudge(old(battle.State()), env)
  {
    hide Battle.Valid, Decided, PlayerTurn, EndWave, PlayTurn;
    var b := battle.State();
    if Decided(b) {
      msgs := EndWaveMsgs(battle, env.stage);
    } else if PlayerTurn(b) {
      if !battle.auto { return [Judge]; }
      var more := PlayTurnMsgs(battle, TEAM_ENEMY, env);
      msgs := [Judge] + more;
    } else {
      msgs := PlayTurnMsgs(battle, TEAM_PLAYER, env);
    }
  }

  /** Turning auto on in the middle of the player's own turn plays that turn at once. */
  method AutoMsgs(battle: Battle, want: int, env: Env) returns (msgs: seq<Message>)
    requires battle.Valid()
    modifies battle, battle.units
    ensures battle.Valid() && battle.units == old(battle.units)
    ensures Answer(battle.State(), msgs) == Replies.SetAuto(old(battle.State()).(auto := want != 0), env)
  {
    hide Battle.Valid, PlayerTurn, PlayTurn;
    battle.SetAuto(want != 0);
    msgs := [AutoSet(want != 0)];
    if battle.auto && battle.turnOpen && PlayerTurn(battle.State()) {
      var more := PlayTurnMsgs(battle, TEAM_ENEMY, env);
      msgs := msgs + more;
    }
  }

  method ChangeCharMsgs(battle: Battle, incoming: nat) returns (msgs: seq<Message>)
    requires battle.Valid()
    modifies battle, battle.units
    ensures battle.Valid() && battle.units == old(battle.units)
    ensures Answer(battle.State(), msgs) == Exchange(old(battle.State()), incoming)
  {
    hide Battle.State, Battle.Valid, Replies.SwapUnits, Acting;
    var at := Acting(battle.State());
    if at.None? { return []; }
    var outgoing := battle.State().units[at.value].order;
    var ok := battle.SwapUnits(incoming, outgoing);
    msgs := if ok then [ChangeChar(incoming, outgoing)] else [];
  }

  method ReadyMsgs(battle: Battle, auto: Option<int>) returns (msgs: seq<Message>)
    requires battle.Valid()
    modifies battle
    ensures battle.Valid() && battle.units == old(battle.units)
    ensures var b := old(battle.State());
            Answer(battle.State(), msgs) == Replies.OpenTurn(if auto.Some? then b.(auto := auto.value != 0) else b)
  {
    hide Battle.State, Battle.Valid, Replies.OpenTurn;
    if auto.Some? { battle.SetAuto(auto.value != 0); }
    msgs := OpenMsgs(battle);
  }

  method NextWaveMsgs(battle: Battle, env: Env) returns (msgs: seq<Message>)
    requires battle.Valid()
    modifies battle, battle.units
    ensures battle.Valid() && forall i :: 0 <= i < |battle.units| ==> battle.units[i] in old(battle.units) || fresh(battle.units[i])
    ensures Answer(battle.State(), msgs) == Inner(old(battle.State()), ReqNextWave, env)
  {
    hide Battle.State, Battle.Valid, Replies.AdvanceWave, NextWaveMsg;
    battle.AdvanceWave(env);
    msgs := [NextWaveMsg(battle.State())];
  }

  method ReconnectMsgs(battle: Battle, accept: bool, env: Env) returns (msgs: seq<Message>)
    requires battle.Valid()
    modifies battle
    ensures battle.Valid() && battle.units == old(battle.units)
    ensures Answer(battle.State(), msgs) == Inner(old(battle.State()), ReqReconnect(accept), env)
  {
    hide Battle.State, Battle.Valid, StartMsg;
    if !accept { return []; }
    msgs := [StartMsg(battle.State(), env.wireable)];
    battle.ReopenTurn();
  }

  /** The reply to any request but the next wave's, with the same units on the field. */
  method WaveReplies(battle: Battle, req: Request, env: Env) returns (msgs: seq<Message>)
    requires battle.Valid() && !req.ReqNextWave?
    modifies battle, battle.units
    ensures battle.Valid() && battle.units == old(battle.units)
    ensures Answer(battle.State(), msgs) == Inner(old(battle.State()), req, env)
  {
    hide Battle.State, Battle.Valid, Replies.OpenTurn, AnswerJudge, PlayerAttack, Replies.SetAuto, Exchange, StartMsg, PlainMessages;
    var plain := PlainMessages(battle.State(), req);
    match req
    case ReqReady(auto) => msgs := ReadyMsgs(battle, auto);
    case ReqStartTurn => msgs := OpenMsgs(battle);
    case ReqJudge => msgs := JudgeMsgs(battle, env);
    case ReqAttack(at, de, key) => msgs := AttackMsgs(battle, at, de, key, env);
    case ReqAuto(want) => msgs := AutoMsgs(battle, want, env);
    case ReqChangeChar(o) => msgs := ChangeCharMsgs(battle, o);
    case ReqReconnect(accept) => msgs := ReconnectMsgs(battle, accept, env);
    case _ => msgs := plain;
  }

  /** The reply itself. */
  method InnerReplies(battle: Battle, req: Request, env: Env) returns (msgs: seq<Message>)
    requires battle.Valid()
    modifies battle, battle.units
    ensures battle.Valid() && forall i :: 0 <= i < |battle.units| ==> battle.units[i] in old(battle.units) || fresh(battle.units[i])
    ensures Answer(battle.State(), msgs) == Inner(old(battle.State()), req, env)
  {
    hide Battle.State, Battle.Valid, Inner;
    if req.ReqNextWave? {
      msgs := NextWaveMsgs(battle, env);
    } else {
      msgs := WaveReplies(battle, req, env);
    }
  }

  /** Answer a request, and never leave a death unsent: a judge with a death queued gets that
      death alone; any other reply carries one queued loss in front, unless it fills the slot. */
  method BattleReplies(battle: Battle, req: Request, env: Env) returns (msgs: seq<Message>)
    requires battle.Valid()
    modifies battle, battle.units
    ensures battle.Valid() && forall i :: 0 <= i < |battle.units| ==> battle.units[i] in old(battle.units) || fresh(battle.units[i])
    ensures Answer(battle.State(), msgs) == Reply(old(battle.State()), req, env)
  {
    hide Battle.State, Battle.Valid, Drain, Inner, AnyPopulates, DeathQueued;
    if req.ReqJudge? && DeathQueued(battle.State()) {
      msgs := FlushMsgs(battle);
      if msgs != [] { return; }
    }
    msgs := InnerReplies(battle, req, env);
    if !AnyPopulates(msgs) {
      var pending := FlushMsgs(battle);
      msgs := pending + msgs;
    }
  }

  /** Rebuild a saved battle: the same construction, the waves already won replayed, and what
      has changed since patched in; an empty queue is rolled again. */
  method RestoreBattle(sv: Saved, world: World) returns (battle: Battle)
    requires Fits(sv, world)
    ensures battle.Valid() && battle.State() == Restore(sv, world)
  {
    hide Battle.State, Battle.Valid, PatchedBattle, Resume.Replay, ValidField, Roll;
    assert Patchwork(sv, world) == PatchedBattle(Resume.Replay(sv.setup, world, sv.wave), sv) by { PatchworkPatched(sv, world); }
    battle := Rebuild(sv, world);
    battle.Patch(sv);
    battle.RollIfEmpty();
  }

  lemma PatchworkPatched(sv: Saved, world: World)
    ensures Patchwork(sv, world) == PatchedBattle(Resume.Replay(sv.setup, world, sv.wave), sv)
  {
  }

  /** Build the battle and replay its waves up to the saved one. */
  method Rebuild(sv: Saved, world: World) returns (battle: Battle)
    ensures fresh(battle) && battle.Valid() && (forall i :: 0 <= i < |battle.units| ==> fresh(battle.units[i]))
    ensures battle.State() == Resume.Replay(sv.setup, world, sv.wave)
  {
    hide Battle.State, Battle.Valid, NewBattle, Replies.AdvanceWave, Resume.Replay;
    var w := if sv.wave <= 1 then sv.wave else 1;
    battle := new Battle(sv.setup, world(w).fx);
    ReplayOpens(sv.setup, world, w);
    if w < sv.wave { ReplayWaves(battle, sv.setup, world, sv.wave); }
  }

  /** Replay the waves after the first, up to wave `last`. */
  method ReplayWaves(battle: Battle, s: Setup, world: World, last: nat)
    requires last >= 1 && battle.Valid() && battle.State() == Resume.Replay(s, world, 1)
    modifies battle, battle.units
    ensures battle.Valid() && battle.State() == Resume.Replay(s, world, last)
    ensures forall i :: 0 <= i < |battle.units| ==> battle.units[i] in old(battle.units) || fresh(battle.units[i])
  {
    hide Battle.State, Battle.Valid, Resume.Replay;
    for w := 1 to last
      invariant battle.Valid() && battle.State() == Resume.Replay(s, world, w)
      invariant forall i :: 0 <= i < |battle.units| ==> battle.units[i] in old(battle.units) || fresh(battle.units[i])
    {
      ReplayWave(battle, s, world, w + 1);
    }
  }

  method ReplayWave(battle: Battle, s: Setup, world: World, w: nat)
    requires w >= 2 && battle.Valid() && battle.State() == Resume.Replay(s, world, w - 1)
    modifies battle, battle.units
    ensures battle.Valid() && battle.State() == Resume.Replay(s, world, w)
    ensures forall i :: 0 <= i < |battle.units| ==> battle.units[i] in old(battle.units) || fresh(battle.units[i])
  {
    hide Battle.State, Battle.Valid, Replies.AdvanceWave;
    ReplayGoesOn(s, world, w);
    battle.AdvanceWave(world(w));
  }

  lemma ReplayOpens(s: Setup, world: World, w: nat)
    requires w <= 1
    ensures Resume.Replay(s, world, w) == NewBattle(s, world(w).fx)
  {
    hide NewBattle;
  }

  lemma ReplayGoesOn(s: Setup, world: World, w: nat)
    requires w >= 2
    ensures Resume.Replay(s, world, w) == Replies.AdvanceWave(Resume.Replay(s, world, w - 1), world(w))
  {
    hide Replies.AdvanceWave;
  }
}
