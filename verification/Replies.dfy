/** The battle's reply protocol: what the server answers to each request of the client.

    The client drives the fight by asking. It has one shared command slot, which WaveBegin,
    StartTurn and Attack each overwrite, and its own picture of who is standing. */
module Replies {
  import opened Wrappers
  import opened Units
  import opened StatusRows
  import opened TurnQueue
  import opened Turns
  import opened Outbound

  const ORDER_BASE: nat := 101

  /** One row of an attack: a unit, a loss, and whether it dies of it. */
  datatype Hit = Hit(order: nat, dmg: nat, die: bool)

  /** A unit as the client is sent it. */
  datatype Sight = Sight(
    order: nat, team: int, index: int, charId: int, hp: nat, maxHp: nat, cooldowns: seq<nat>, scv: real, spd: real)

  /** The running numbers of a unit: hit points, gauge and effective speed. */
  datatype Sync = Sync(order: nat, maxHp: nat, hp: nat, scv: real, spd: real)

  datatype Message =
    | WaveBegin
    | StartTurn
    | Judge
    | Attack(hits: seq<Hit>, status: seq<Change>)
    | WaveEnd(win: bool, wave: nat)
    | NextWave(enemies: seq<Sight>, line: seq<nat>, sync: seq<Sync>)
    | ServerStart(
        field: seq<Sight>, status: seq<Change>, line: seq<nat>, wave: nat, waveMax: nat, round: nat, damageSum: nat)
    | AutoSet(on: bool)
    | CharInfo(order: nat)
    | ChangeChar(incoming: nat, outgoing: nat)
    | Replay
    | Retreat
    | RuneKept
    | Push

  datatype Request =
    | ReqReady(auto: Option<int>)
    | ReqStartTurn
    | ReqJudge
    | ReqAttack(attacker: nat, defender: nat, key: int)
    | ReqNextWave
    | ReqRetreat
    | ReqBattleEnd(pushes: nat)
    | ReqAuto(want: int)
    | ReqCharInfo(order: nat)
    | ReqChangeChar(incoming: nat)
    | ReqSelectRune(kept: Option<bool>)
    | ReqReconnect(accept: bool)
    | ReqReplay
    | ReqReportError
    | ReqOther

  datatype Move = Move(attacker: nat, defender: nat, slot: nat)

  datatype Mob = Mob(charId: int, spd: real, hp: nat, cdTurns: seq<nat>, ultCharge: nat)

  /** The stage's waves: one list of field slots each, a slot empty or holding a mob. */
  datatype Stage = Stage(enemyBase: nat, groups: seq<seq<Option<Mob>>>, bossBook: bool)

  /** Everything the protocol does not decide: the stage, the passives, how a skill resolves,
      which move the chooser picks, and which status ids the client knows. */
  datatype Env = Env(
    stage: Stage, fx: Passives,
    resolve: (BattleState, nat, nat, int) -> seq<Effect>,
    choose: (BattleState, int) -> Option<Move>,
    ratio: (int, nat) -> real,
    wireable: int -> bool)

  /** The messages that replace the client's one command. */
  predicate Populates(m: Message) {
    m.WaveBegin? || m.StartTurn? || m.Attack?
  }

  // -- an attack --------------------------------------------------------------------

  predicate StrikesUnit(es: seq<Effect>, order: nat) {
    exists k :: 0 <= k < |es| && es[k].Strike? && es[k].target == order
  }

  /** A row for every strike; a unit it leaves dead dies on the last row that names it. */
  function HitsOf(after: seq<UnitState>, es: seq<Effect>): seq<Hit> {
    if es == [] then []
    else (match es[0]
          case Strike(t, n) => [Hit(t, n, Dead(after, t) && !StrikesUnit(es[1..], t))]
          case _ => []) + HitsOf(after, es[1..])
  }

  function OnWire(cs: seq<Change>, wireable: int -> bool): seq<Change>
    decreases |cs|
  {
    if cs == [] then []
    else OnWire(cs[..|cs| - 1], wireable) + if wireable(cs[|cs| - 1].id) then [cs[|cs| - 1]] else []
  }

  /** The queued rows an attack may carry: of this wave. */
  function OfWave(rows: seq<Row>, wave: nat): seq<Change>
    decreases |rows|
  {
    if rows == [] then []
    else OfWave(rows[..|rows| - 1], wave) + if rows[|rows| - 1].wave == wave then [rows[|rows| - 1].change] else []
  }

  /** The status rows of an attack: its own first, then the queued ones behind them. */
  function StatusOf(b: BattleState, done: seq<Effect>, wireable: int -> bool): seq<Change> {
    OnWire(ChangesOf(done), wireable) + OnWire(OfWave(b.rows, b.wave), wireable)
  }

  /** The damage dealt that an attack's effects put on record. */
  function DealtBy(es: seq<Effect>): nat {
    if es == [] then 0 else DealtBy(es[..|es| - 1]) + if es[|es| - 1].Tally? then es[|es| - 1].done else 0
  }

  /** What a skill does: nothing, when nobody uses it. */
  function EffectsOf(b: BattleState, attacker: nat, defender: nat, slot: int, env: Env): seq<Effect> {
    if Find(b.units, attacker).Some? then env.resolve(b, attacker, defender, slot) else []
  }

  /** Resolve a skill use: the effects land, and the attack tells of them. */
  function ResolveSkill(b: BattleState, attacker: nat, defender: nat, slot: int, env: Env): (r: (BattleState, Message))
    ensures r.1.Attack? && |r.0.units| == |b.units|
  {
    var es := EffectsOf(b, attacker, defender, slot, env);
    var us := LandAll(b.units, es);
    var done := Landed(b.units, es);
    var status := StatusOf(b, done, env.wireable);
    var hits := HitsOf(us, done);
    (b.(units := us, rows := [], told := Tell(b.told, status), damageSum := b.damageSum + DealtBy(done)),
     Attack(if hits == [] then [Hit(if Find(b.units, defender).Some? then defender else attacker, 0, false)] else hits, status))
  }

  function SpendSkill(b: BattleState, attacker: nat, slot: int): (b': BattleState)
    ensures |b'.units| == |b.units|
  {
    match Find(b.units, attacker)
    case None => b
    case Some(i) => b.(units := b.units[i := UseSkill(b.units[i], slot)])
  }

  // -- choosing a move --------------------------------------------------------------

  function FirstFoe(us: seq<UnitState>, team: int): Option<nat> {
    if us == [] then None
    else if us[0].team == team && Alive(us[0]) then Some(us[0].order)
    else FirstFoe(us[1..], team)
  }

  /** The slot of the highest ratio, the first among equals. */
  function BestSlot(charId: int, slots: seq<nat>, ratio: (int, nat) -> real): nat
    requires slots != []
  {
    if |slots| == 1 then slots[0]
    else
      var s := BestSlot(charId, slots[..|slots| - 1], ratio);
      var l := slots[|slots| - 1];
      if ratio(charId, l) > ratio(charId, s) then l else s
  }

  function Greedy(b: BattleState, team: int, env: Env): Option<Move> {
    var a := Acting(b);
    var t := FirstFoe(b.units, team);
    if a.None? || t.None? then None
    else
      var u := b.units[a.value];
      Some(Move(u.order, t.value, BestSlot(u.charId, UsableSlots(u), env.ratio)))
  }

  function AutoMove(b: BattleState, team: int, env: Env): Option<Move> {
    var m := env.choose(b, team);
    if m.Some? then m else Greedy(b, team, env)
  }

  // -- waves ------------------------------------------------------------------------

  function NewMob(order: nat, slot: nat, m: Mob): UnitState {
    UnitState(order, TEAM_ENEMY, slot, m.charId, m.spd, m.cdTurns, m.ultCharge, m.hp, m.hp, 0.0, 0.0, 0,
              seq(|m.cdTurns|, _ => 0), [], 0, 0, 0)
  }

  /** The mobs of the first `n` slots, each under its slot's order. */
  function MobsOf(base: nat, slots: seq<Option<Mob>>, n: nat): seq<UnitState>
    requires n <= |slots|
  {
    if n == 0 then []
    else MobsOf(base, slots, n - 1) +
         match slots[n - 1] { case None => [] case Some(m) => [NewMob(base + (n - 1), n - 1, m)] }
  }

  /** The enemies of a wave; a wave past the last repeats it. */
  function WaveMobs(stage: Stage, wave: nat): seq<UnitState> {
    if stage.groups == [] || wave == 0 then []
    else
      var g := stage.groups[if wave <= |stage.groups| then wave - 1 else |stage.groups| - 1];
      MobsOf(stage.enemyBase, g, |g|)
  }

  function OfTeam(us: seq<UnitState>, team: int): (r: seq<UnitState>)
    ensures forall k :: 0 <= k < |r| ==> r[k].team == team && r[k] in us
  {
    if us == [] then []
    else
      var r := OfTeam(us[..|us| - 1], team);
      var u := us[|us| - 1];
      assert us == us[..|us| - 1] + [u];
      if u.team == team then r + [u] else r
  }

  /** Fold an outgoing enemy's totals into its slot's record. */
  function BankOne(totals: map<nat, Total>, u: UnitState): map<nat, Total> {
    if u.order !in totals then totals[u.order := Total(u.index, u.charId, u.dmgDone, u.dmgTaken, u.healed)]
    else
      var t := totals[u.order];
      totals[u.order := Total(t.index, u.charId, t.done + u.dmgDone, t.taken + u.dmgTaken, t.healed + u.healed)]
  }

  function BankAll(totals: map<nat, Total>, us: seq<UnitState>): map<nat, Total> {
    if us == [] then totals else BankOne(BankAll(totals, us[..|us| - 1]), us[|us| - 1])
  }

  /** Replace the enemy side with the mobs of the battle's wave, banking the old side first. */
  function SpawnWave(b: BattleState, stage: Stage): BattleState {
    b.(totals := BankAll(b.totals, OfTeam(b.units, TEAM_ENEMY)),
       units := OfTeam(b.units, TEAM_PLAYER) + WaveMobs(stage, b.wave))
  }

  function ResetGauges(us: seq<UnitState>): (us': seq<UnitState>)
    ensures |us'| == |us|
    ensures forall i :: 0 <= i < |us| ==> us'[i] == us[i].(scv := 0.0, pendingScv := 0.0)
  {
    seq(|us|, i requires 0 <= i < |us| => us[i].(scv := 0.0, pendingScv := 0.0))
  }

  /** The next wave up to its roll: queues forgotten, enemies replaced, openings applied. */
  function OpenWave(b: BattleState, env: Env): BattleState {
    var b1 := SpawnWave(b.(wave := b.wave + 1, rows := [], deaths := [], told := {}), env.stage);
    var us := LandAll(b1.units, env.fx(BattleStart, b1));
    b1.(units := ResetGauges(us), waveBegun := false, turnOpen := false)
  }

  lemma WaveMobsValid(stage: Stage, wave: nat)
    ensures ValidField(WaveMobs(stage, wave))
  {
    if stage.groups != [] && wave != 0 {
      var g := stage.groups[if wave <= |stage.groups| then wave - 1 else |stage.groups| - 1];
      MobsValid(stage.enemyBase, g, |g|);
    }
  }

  lemma {:induction false} MobsValid(base: nat, slots: seq<Option<Mob>>, n: nat)
    requires n <= |slots|
    ensures ValidField(MobsOf(base, slots, n))
  {
    if n > 0 {
      MobsValid(base, slots, n - 1);
    }
  }

  lemma SpawnWaveValid(b: BattleState, stage: Stage)
    requires ValidField(b.units)
    ensures ValidField(SpawnWave(b, stage).units)
  {
    WaveMobsValid(stage, b.wave);
    hide BankAll, WaveMobs;
  }

  lemma OpenWaveValid(b: BattleState, env: Env)
    requires ValidField(b.units)
    ensures ValidField(OpenWave(b, env).units)
  {
    var b0 := b.(wave := b.wave + 1, rows := [], deaths := [], told := {});
    SpawnWaveValid(b0, env.stage);
    hide SpawnWave, LandAll;
    LandAllValid(SpawnWave(b0, env.stage).units, env.fx(BattleStart, SpawnWave(b0, env.stage)));
  }

  ghost function AdvanceWave(b: BattleState, env: Env): (b': BattleState)
    requires ValidField(b.units)
    ensures ValidField(b'.units)
  {
    OpenWaveValid(b, env);
    Roll(OpenWave(b, env))
  }

  /** The orders of a side's living units. */
  function OrdersOf(us: seq<UnitState>, team: int): set<nat> {
    set i | 0 <= i < |us| && us[i].team == team && Alive(us[i]) :: us[i].order
  }

  // -- showing the field ------------------------------------------------------------

  function Shows(us: seq<UnitState>): (ss: seq<Sight>)
    ensures |ss| == |us|
    ensures forall i :: 0 <= i < |us| ==> ss[i].order == us[i].order && ss[i].team == us[i].team && ss[i].hp == us[i].hp
  {
    seq(|us|, i requires 0 <= i < |us| =>
      Sight(us[i].order, us[i].team, us[i].index, us[i].charId, us[i].hp, us[i].maxHp, us[i].cooldowns, us[i].scv, us[i].spd))
  }

  function Syncs(us: seq<UnitState>): (ss: seq<Sync>)
    ensures |ss| == |us|
  {
    seq(|us|, i requires 0 <= i < |us| => Sync(us[i].order, us[i].maxHp, us[i].hp, us[i].scv, EffectiveSpd(us[i])))
  }

  /** Every status on the field, as an application with the turns it has left. */
  function StatusesOf(us: seq<UnitState>): seq<Change> {
    if us == [] then []
    else
      var u := us[|us| - 1];
      StatusesOf(us[..|us| - 1])
      + seq(|u.statuses|, k requires 0 <= k < |u.statuses| => Change(u.order, u.statuses[k].id, true, u.statuses[k].remaining))
  }

  /** The new wave: every enemy, the dead ones with no hit points, the queue and everybody's numbers. */
  function NextWaveMsg(b: BattleState): Message {
    NextWave(Shows(OfTeam(b.units, TEAM_ENEMY)), b.turnOrder, Syncs(b.units))
  }

  /** The whole battle: every unit of both sides, alive or dead, and what the scene opens with. */
  function StartMsg(b: BattleState, wireable: int -> bool): Message {
    ServerStart(Shows(b.units), OnWire(StatusesOf(b.units), wireable), b.turnOrder, b.wave, b.waveMax, b.round, b.damageSum)
  }

  // -- the replies ------------------------------------------------------------------

  datatype Answer = Answer(b: BattleState, msgs: seq<Message>)

  lemma ResolveValid(b: BattleState, attacker: nat, defender: nat, slot: int, env: Env)
    requires ValidField(b.units)
    ensures ValidField(ResolveSkill(b, attacker, defender, slot, env).0.units)
  {
    LandAllValid(b.units, env.resolve(b, attacker, defender, slot));
  }

  lemma SpendSkillValid(b: BattleState, attacker: nat, slot: int)
    requires ValidField(b.units)
    ensures ValidField(SpendSkill(b, attacker, slot).units)
  {
  }

  /** The server plays the acting unit's move: one attack, then the turn ends. */
  ghost function PlayTurn(b: BattleState, team: int, env: Env): (a: Answer)
    requires ValidField(b.units)
    ensures ValidField(a.b.units)
  {
    match AutoMove(b, team, env)
    case None => Answer(b, [])
    case Some(m) =>
      var s := ResolveSkill(b, m.attacker, m.defender, m.slot, env);
      ResolveValid(b, m.attacker, m.defender, m.slot, env);
      SpendSkillValid(s.0, m.attacker, m.slot);
      Answer(EndTurn(SpendSkill(s.0, m.attacker, m.slot), env.fx), [s.1])
  }

  /** The player's own attack; a slot that is not usable falls back to the basic attack. */
  ghost function PlayerAttack(b: BattleState, attacker: nat, defender: nat, key: int, env: Env): (a: Answer)
    requires ValidField(b.units)
    ensures ValidField(a.b.units)
  {
    var slot := SlotFor(b, attacker, key);
    var b1 := SpendSkill(b, attacker, slot);
    SpendSkillValid(b, attacker, slot);
    var s := ResolveSkill(b1, attacker, defender, slot, env);
    ResolveValid(b1, attacker, defender, slot, env);
    Answer(EndTurn(s.0, env.fx), [s.1])
  }

  function SlotFor(b: BattleState, attacker: nat, key: int): int {
    var i := Find(b.units, attacker);
    if i.Some? && (key < 1 || (key - 1) as nat !in UsableSlots(b.units[i.value])) then 0 else key - 1
  }

  function OpenTurn(b: BattleState): Answer {
    if b.turnOpen then Answer(b, [])
    else Answer(b.(turnOpen := true, waveBegun := true), if b.waveBegun then [StartTurn] else [WaveBegin, StartTurn])
  }

  function AttackOf(d: DeathRow): Message {
    Attack([Hit(d.order, d.dmg, d.die)], [])
  }

  function SentMessages(w: Drained): (ms: seq<Message>)
    ensures |ms| == |w.sent| && forall k :: 0 <= k < |ms| ==> ms[k] == AttackOf(w.sent[k])
  {
    seq(|w.sent|, k requires 0 <= k < |w.sent| => AttackOf(w.sent[k]))
  }

  predicate Decided(b: BattleState) {
    !TeamAlive(b.units, TEAM_ENEMY) || !TeamAlive(b.units, TEAM_PLAYER)
  }

  predicate PlayerTurn(b: BattleState) {
    Acting(b).Some? && b.units[Acting(b).value].team == TEAM_PLAYER
  }

  /** A decided fight: one more death, or, with none left to tell, the end of the wave. */
  function EndWave(b: BattleState, stage: Stage): Answer {
    var w := Drain1(b);
    var b' := b.(deaths := w.kept);
    if w.sent != [] then Answer(b', SentMessages(w))
    else Answer(b', [WaveEnd(!TeamAlive(b.units, TEAM_ENEMY) || stage.bossBook, b.wave)])
  }

  ghost function AnswerJudge(b: BattleState, env: Env): (a: Answer)
    requires ValidField(b.units)
    ensures ValidField(a.b.units)
  {
    if Decided(b) then EndWave(b, env.stage)
    else if PlayerTurn(b) then
      if !b.auto then Answer(b, [Judge])
      else
        var a := PlayTurn(b, TEAM_ENEMY, env);
        a.(msgs := [Judge] + a.msgs)
    else PlayTurn(b, TEAM_PLAYER, env)
  }

  /** Turning auto on in the middle of the player's own turn plays that turn at once. */
  ghost function SetAuto(b: BattleState, env: Env): (a: Answer)
    requires ValidField(b.units)
    ensures ValidField(a.b.units)
  {
    if b.auto && b.turnOpen && PlayerTurn(b) then
      var a := PlayTurn(b, TEAM_ENEMY, env);
      a.(msgs := [AutoSet(b.auto)] + a.msgs)
    else Answer(b, [AutoSet(b.auto)])
  }

  function Swap(q: seq<nat>, a: nat, c: nat): seq<nat> {
    if a in q && c in q then
      seq(|q|, k requires 0 <= k < |q| =>
        if q[k] == a then c else if q[k] == c then a else q[k])
    else q
  }

  /** Exchange two units' field slots and places in the queue. */
  function SwapUnits(b: BattleState, incoming: nat, outgoing: nat): Option<BattleState> {
    var i, j := Find(b.units, incoming), Find(b.units, outgoing);
    if i.None? || j.None? || i == j then None
    else
      var u, v := b.units[i.value], b.units[j.value];
      Some(b.(units := b.units[i.value := u.(index := v.index)][j.value := v.(index := u.index)],
              turnOrder := Swap(b.turnOrder, incoming, outgoing)))
  }

  /** The acting unit changes places with the one asked for, or nothing happens. */
  function Exchange(b: BattleState, incoming: nat): (a: Answer)
    ensures ValidField(b.units) ==> ValidField(a.b.units)
  {
    match Acting(b)
    case None => Answer(b, [])
    case Some(i) =>
      var out := b.units[i].order;
      match SwapUnits(b, incoming, out)
      case None => Answer(b, [])
      case Some(b') => Answer(b', [ChangeChar(incoming, out)])
  }

  /** What the requests that change nothing are answered. */
  function PlainMessages(b: BattleState, req: Request): seq<Message> {
    match req
    case ReqRetreat => [Retreat]
    case ReqBattleEnd(n) => seq(n, _ => Push)
    case ReqCharInfo(o) => if Find(b.units, o).Some? then [CharInfo(o)] else []
    case ReqSelectRune(kept) => if kept.None? then [] else if kept.value then [RuneKept, Push] else [RuneKept]
    case ReqReplay => [Replay]
    case _ => []
  }

  ghost function Inner(b: BattleState, req: Request, env: Env): (a: Answer)
    requires ValidField(b.units)
    ensures ValidField(a.b.units)
  {
    match req
    case ReqReady(auto) => OpenTurn(if auto.Some? then b.(auto := auto.value != 0) else b)
    case ReqStartTurn => OpenTurn(b)
    case ReqJudge => AnswerJudge(b, env)
    case ReqAttack(at, de, key) => PlayerAttack(b, at, de, key, env)
    case ReqNextWave =>
      var b' := AdvanceWave(b, env);
      Answer(b', [NextWaveMsg(b')])
    case ReqAuto(want) => SetAuto(b.(auto := want != 0), env)
    case ReqChangeChar(o) => Exchange(b, o)
    case ReqReconnect(accept) =>
      if !accept then Answer(b, [])
      else Answer(b.(turnOpen := false), [StartMsg(b, env.wireable)])
    case _ => Answer(b, PlainMessages(b, req))
  }

  predicate DeathQueued(b: BattleState) {
    exists k :: 0 <= k < |b.deaths| && b.deaths[k].die
  }

  predicate AnyPopulates(ms: seq<Message>) {
    exists k :: 0 <= k < |ms| && Populates(ms[k])
  }

  /** The reply proper, and the death flush around it. */
  ghost function Flushed(b: BattleState, req: Request, env: Env): (a: Answer)
    requires ValidField(b.units)
    ensures ValidField(a.b.units)
  {
    var a := Inner(b, req, env);
    if AnyPopulates(a.msgs) then a
    else
      var w := Drain1(a.b);
      Answer(a.b.(deaths := w.kept), SentMessages(w) + a.msgs)
  }

  /** ONE REQUEST: a judge with a death queued is answered by that death alone; any other
      reply carries at most one queued row, and none behind a message that fills the slot. */
  ghost function Reply(b: BattleState, req: Request, env: Env): (a: Answer)
    requires ValidField(b.units)
    ensures ValidField(a.b.units)
  {
    if req.ReqJudge? && DeathQueued(b) then
      var w := Drain1(b);
      var b' := b.(deaths := w.kept);
      if w.sent != [] then Answer(b', SentMessages(w)) else Flushed(b', req, env)
    else Flushed(b, req, env)
  }
}
