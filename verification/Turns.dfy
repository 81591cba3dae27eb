/** Ending a turn and starting the next: ticks, skipped turns, deaths and their news.

    Skill execution and passive scripts live in the engine; here they are an oracle that may
    return any list of effects for any moment of any state, except that nothing revives. */
module Turns {
  import opened Wrappers
  import opened Units
  import opened StatusRows
  import opened TurnQueue

  datatype Effect =
    | Strike(target: nat, amount: nat)
    | Heal(target: nat, amount: nat)
    | Gauge(target: nat, delta: real)
    | BankGauge(target: nat, delta: real)
    | Reload(target: nat, turns: int)
    | Grant(target: nat, status: Active)
    | Strip(target: nat, id: int)
    | Tally(target: nat, done: nat, taken: nat, healed: nat)

  datatype Moment = BattleStart | AfterAction | OnDeath(depth: nat) | TurnStart(depth: nat)

  type Passives = (Moment, BattleState) -> seq<Effect>

  // -- effects ----------------------------------------------------------------------

  predicate Holds(u: UnitState, id: int) {
    exists k :: 0 <= k < |u.statuses| && u.statuses[k].id == id
  }

  /** The statuses without the first one of this id. */
  function Drop(ss: seq<Active>, id: int): seq<Active> {
    if ss == [] then []
    else if ss[0].id == id then ss[1..]
    else [ss[0]] + Drop(ss[1..], id)
  }

  /** The statuses with this one on: in place of the one of its id, or behind the rest. */
  function Put(ss: seq<Active>, st: Active): seq<Active> {
    if ss == [] then [st]
    else if ss[0].id == st.id then [st] + ss[1..]
    else [ss[0]] + Put(ss[1..], st)
  }

  function Lower(hp: nat, amount: nat): nat { if amount >= hp then 0 else hp - amount }

  /** One effect on the unit it names. Healing does not raise the dead. */
  function Struck(u: UnitState, e: Effect): (u': UnitState)
    ensures SameBuild(u, u')
    ensures ValidUnit(u) ==> ValidUnit(u')
    ensures !Alive(u) ==> !Alive(u')
    ensures !e.Strike? && Alive(u) ==> Alive(u')
  {
    match e
    case Strike(_, n) => u.(hp := Lower(u.hp, n))
    case Heal(_, n) =>
      var to := if u.hp + n <= u.maxHp then u.hp + n else u.maxHp;
      if Alive(u) && to > u.hp then u.(hp := to) else u
    case Gauge(_, d) => if d > 0.0 && Blocked(u) then u else u.(scv := Clamp(u.scv + d))
    case BankGauge(_, d) => if d > 0.0 && Blocked(u) then u else u.(pendingScv := u.pendingScv + d)
    case Reload(_, n) => u.(cooldowns := seq(|u.cooldowns|, k requires 0 <= k < |u.cooldowns| =>
                              if u.cooldowns[k] + n > 0 then u.cooldowns[k] + n else 0))
    case Grant(_, st) => u.(statuses := Put(u.statuses, st))
    case Strip(_, id) => u.(statuses := Drop(u.statuses, id))
    case Tally(_, d, t, h) => u.(dmgDone := u.dmgDone + d, dmgTaken := u.dmgTaken + t, healed := u.healed + h)
  }

  /** Does the effect find its unit, and a removal the status it removes? */
  predicate Lands(us: seq<UnitState>, e: Effect) {
    var i := Find(us, e.target);
    i.Some? && (e.Strip? ==> Holds(us[i.value], e.id))
  }

  function Land(us: seq<UnitState>, e: Effect): (us': seq<UnitState>)
    ensures |us'| == |us|
  {
    if Lands(us, e) then us[Find(us, e.target).value := Struck(us[Find(us, e.target).value], e)] else us
  }

  function LandAll(us: seq<UnitState>, es: seq<Effect>): (us': seq<UnitState>)
    ensures |us'| == |us|
    decreases |es|
  {
    if es == [] then us else Land(LandAll(us, es[..|es| - 1]), es[|es| - 1])
  }

  /** The effects that landed, in order. */
  function Landed(us: seq<UnitState>, es: seq<Effect>): seq<Effect>
    decreases |es|
  {
    if es == [] then []
    else
      var n := |es| - 1;
      Landed(us, es[..n]) + if Lands(LandAll(us, es[..n]), es[n]) then [es[n]] else []
  }

  // -- telling the client -----------------------------------------------------------

  /** The status change an effect is. */
  function ChangeOf(e: Effect): seq<Change> {
    match e
    case Grant(t, st) => [Change(t, st.id, true, st.remaining)]
    case Strip(t, id) => [Change(t, id, false, None)]
    case _ => []
  }

  function ChangesOf(es: seq<Effect>): seq<Change>
    decreases |es|
  {
    if es == [] then [] else ChangesOf(es[..|es| - 1]) + ChangeOf(es[|es| - 1])
  }

  predicate Dead(us: seq<UnitState>, order: nat) {
    Find(us, order).Some? && !Alive(us[Find(us, order).value])
  }

  /** A death row for every strike on a unit that the effects left dead; what is shown is at
      most what the unit had. */
  function KillRows(before: seq<UnitState>, after: seq<UnitState>, wave: nat, es: seq<Effect>): seq<DeathRow>
    decreases |es|
  {
    if es == [] then []
    else
      var e := es[|es| - 1];
      KillRows(before, after, wave, es[..|es| - 1]) +
      if e.Strike? && e.amount > 0 && Dead(after, e.target) then
        var had := Find(before, e.target);
        [DeathRow(e.target, if had.Some? && before[had.value].hp < e.amount then before[had.value].hp else e.amount, wave, true)]
      else []
  }

  /** Passive effects take hold, and their news is queued. */
  function Fire(b: BattleState, es: seq<Effect>): (b': BattleState)
    ensures |b'.units| == |b.units|
  {
    var us := LandAll(b.units, es);
    var done := Landed(b.units, es);
    b.(units := us,
       deaths := b.deaths + KillRows(b.units, us, b.wave, done),
       rows := QueueAll(b.rows, b.told, b.wave, ChangesOf(done)))
  }

  /** The start-of-turn tick of unit `i`: every loss is queued, a fatal one as a death. */
  function Tick(b: BattleState, i: nat): (b': BattleState)
    requires i < |b.units|
    ensures |b'.units| == |b.units|
  {
    var u := b.units[i];
    var u' := TickHp(u);
    var row := DeathRow(u.order, TickDealt(u), b.wave, !Alive(u'));
    b.(units := b.units[i := u'],
       deaths := if !Alive(u') || DotOf(u.statuses) > 0 then b.deaths + [row] else b.deaths)
  }

  /** An immobilised unit's skipped turn: it reloads, its durations run, its gauge is spent. */
  function Skip(b: BattleState, i: nat): (b': BattleState)
    requires i < |b.units|
    ensures |b'.units| == |b.units|
  {
    var u := b.units[i];
    b.(units := b.units[i := TickDurations(TickCooldowns(u)).(scv := 0.0)],
       rows := QueueAll(b.rows, b.told, b.wave, Removals(u, Expired(u.statuses, false))))
  }

  // -- the turn ---------------------------------------------------------------------

  function Acting(b: BattleState): (i: Option<nat>)
    ensures i.Some? ==> i.value < |b.units| && b.turnOrder != [] && b.units[i.value].order == b.turnOrder[0]
  {
    if b.turnOrder == [] then None else Find(b.units, b.turnOrder[0])
  }

  lemma {:induction false} LandAllValid(us: seq<UnitState>, es: seq<Effect>)
    requires ValidField(us)
    ensures ValidField(LandAll(us, es))
    decreases |es|
  {
    if es != [] {
      LandAllValid(us, es[..|es| - 1]);
    }
  }

  lemma FireValid(b: BattleState, es: seq<Effect>)
    requires ValidField(b.units)
    ensures ValidField(Fire(b, es).units)
  {
    LandAllValid(b.units, es);
  }

  /** The start of a turn: settled, or somebody else must be seated. */
  datatype Start = Settled(b: BattleState) | Again(b: BattleState)

  /** Tick the head of the queue; if it dies or cannot act, seat the next one. */
  ghost function StartStep(b: BattleState, depth: nat, fx: Passives): (s: Start)
    requires ValidField(b.units)
    ensures ValidField(s.b.units) && |s.b.units| == |b.units|
  {
    var i := Acting(b);
    if i.None? then Settled(b)
    else
      var b1 := Tick(b, i.value);
      if !Alive(b1.units[i.value]) then
        FireValid(b1, fx(OnDeath(depth), b1));
        Again(Roll(Fire(b1, fx(OnDeath(depth), b1))))
      else
        FireValid(b1, fx(TurnStart(depth), b1));
        var b2 := Fire(b1, fx(TurnStart(depth), b1));
        if Immobilized(b2.units[i.value]) then
          var b3 := Roll(Skip(b2, i.value));
          Again(b3.(round := b3.round + 1))
        else Settled(b2)
  }

  /** Settle the head of the queue. The depth is capped at the number of units. */
  ghost function StartOfTurn(b: BattleState, depth: nat, fx: Passives): (b': BattleState)
    requires ValidField(b.units)
    ensures ValidField(b'.units) && |b'.units| == |b.units|
    decreases |b.units| + 1 - depth
  {
    if depth > |b.units| then b
    else match StartStep(b, depth, fx)
         case Settled(b') => b'
         case Again(b') => StartOfTurn(b', depth + 1, fx)
  }

  /** The actor reloads, spends its gauge, and after its passives its durations run. */
  function FinishAction(b: BattleState, i: nat, fx: Passives): (b': BattleState)
    requires i < |b.units|
    ensures |b'.units| == |b.units|
    ensures ValidField(b.units) ==> ValidField(b'.units)
  {
    var b1 := b.(units := b.units[i := SpendGauge(TickCooldowns(b.units[i]))]);
    var es := fx(AfterAction, b1);
    assert ValidField(b.units) ==> ValidField(Fire(b1, es).units) by {
      if ValidField(b.units) { FireValid(b1, es); }
    }
    var b2 := Fire(b1, es);
    b2.(units := b2.units[i := TickDurations(b2.units[i])])
  }

  /** The state in which the next turn opens, before its start-of-turn housekeeping. */
  ghost function Rotate(b: BattleState, fx: Passives): (b': BattleState)
    requires ValidField(b.units)
    ensures ValidField(b'.units) && |b'.units| == |b.units|
  {
    var i := Acting(b);
    var b1 := if i.None? then b else FinishAction(b, i.value, fx);
    var b2 := Roll(AgeBlocks(b1));
    b2.(round := b2.round + 1, turnOpen := false)
  }

  ghost function EndTurn(b: BattleState, fx: Passives): (b': BattleState)
    requires ValidField(b.units)
    ensures ValidField(b'.units) && |b'.units| == |b.units|
  {
    StartOfTurn(Rotate(b, fx), 0, fx)
  }
}
