/** A battle unit as a value: hit points, move gauge, cooldowns and statuses.

    Statuses carry what the rest of the model reads off them: whether they stop the gauge or
    the turn, how they bend SPD, what they tick for, and which skill slots they seal. */
module Units {
  import opened Wrappers
  import opened GaugeRace

  const TEAM_PLAYER: int := 1
  const TEAM_ENEMY: int := 2
  const ULTIMATE_SLOT: nat := 2

  /** One status on one unit; `remaining` is None when it lasts the whole battle. */
  datatype Active = Active(
    id: int, remaining: Option<int>, blocks: bool, immobilizes: bool,
    spdPct: real, dot: nat, hot: nat, seals: set<nat>)

  /** `order` is the unit's key, `index` its field slot; `spd`, `cdTurns` and `ultCharge` are
      fixed at construction, the rest changes in battle. */
  datatype UnitState = UnitState(
    order: nat, team: int, index: int, charId: int, spd: real, cdTurns: seq<nat>, ultCharge: nat,
    hp: nat, maxHp: nat, scv: real, pendingScv: real, charge: nat, cooldowns: seq<nat>,
    statuses: seq<Active>, dmgDone: nat, dmgTaken: nat, healed: nat)

  predicate Alive(u: UnitState) { u.hp > 0 }

  predicate ValidUnit(u: UnitState) {
    0.0 <= u.scv <= FULL && |u.cooldowns| == |u.cdTurns| && u.hp <= u.maxHp
  }

  /** What is settled when a unit is built, and no battle step changes. */
  predicate SameBuild(u: UnitState, v: UnitState) {
    v.order == u.order && v.team == u.team && v.charId == u.charId && v.spd == u.spd && v.cdTurns == u.cdTurns && v.ultCharge == u.ultCharge
  }

  // -- reads off the statuses -------------------------------------------------------

  predicate Blocked(u: UnitState) {
    exists k :: 0 <= k < |u.statuses| && u.statuses[k].blocks
  }

  predicate Immobilized(u: UnitState) {
    exists k :: 0 <= k < |u.statuses| && u.statuses[k].immobilizes
  }

  function SpdPct(ss: seq<Active>): real {
    if ss == [] then 0.0 else ss[0].spdPct + SpdPct(ss[1..])
  }

  function Max(a: real, b: real): real { if a >= b then a else b }

  /** SPD as the gauge sees it: percentages add up, the product is floored at 1. */
  function EffectiveSpd(u: UnitState): (s: real)
    ensures s >= 1.0
  {
    Max(1.0, u.spd * Max(0.0, 1.0 + SpdPct(u.statuses) / 100.0))
  }

  function DotOf(ss: seq<Active>): nat {
    if ss == [] then 0 else ss[0].dot + DotOf(ss[1..])
  }

  function HotOf(ss: seq<Active>): nat {
    if ss == [] then 0 else ss[0].hot + HotOf(ss[1..])
  }

  predicate Sealed(u: UnitState, slot: nat) {
    exists k :: 0 <= k < |u.statuses| && slot in u.statuses[k].seals
  }

  // -- durations --------------------------------------------------------------------

  /** Does one turn of the clock count against this status? `gauge` asks for gauge blocks only. */
  predicate Spends(st: Active, gauge: bool) {
    st.remaining.Some? && (gauge ==> st.blocks)
  }

  function Spent(st: Active): Active
    requires st.remaining.Some?
  {
    st.(remaining := Some(st.remaining.value - 1))
  }

  /** What is left after one turn of the clock. */
  function Kept(ss: seq<Active>, gauge: bool): (r: seq<Active>)
    ensures |r| <= |ss|
  {
    if ss == [] then []
    else if !Spends(ss[0], gauge) then [ss[0]] + Kept(ss[1..], gauge)
    else if ss[0].remaining.value - 1 <= 0 then Kept(ss[1..], gauge)
    else [Spent(ss[0])] + Kept(ss[1..], gauge)
  }

  /** What falls off in one turn of the clock. */
  function Expired(ss: seq<Active>, gauge: bool): seq<Active> {
    if ss == [] then []
    else if Spends(ss[0], gauge) && ss[0].remaining.value - 1 <= 0 then
      [Spent(ss[0])] + Expired(ss[1..], gauge)
    else Expired(ss[1..], gauge)
  }

  /** Turns of clock that can still be spent on gauge blocks; each is worth at least one. */
  function BlockTurns(ss: seq<Active>): nat {
    if ss == [] then 0
    else BlockTurns(ss[1..]) +
         if !Spends(ss[0], true) then 0
         else if ss[0].remaining.value <= 1 then 1 else ss[0].remaining.value
  }

  predicate AnySpends(ss: seq<Active>, gauge: bool) {
    exists k :: 0 <= k < |ss| && Spends(ss[k], gauge)
  }

  lemma {:induction false} AgeingShrinks(ss: seq<Active>)
    ensures BlockTurns(Kept(ss, true)) <= BlockTurns(ss)
    ensures AnySpends(ss, true) ==> BlockTurns(Kept(ss, true)) < BlockTurns(ss)
    ensures !AnySpends(ss, true) ==> Kept(ss, true) == ss && Expired(ss, true) == []
  {
    if ss != [] {
      AgeingShrinks(ss[1..]);
      if AnySpends(ss, true) && !Spends(ss[0], true) {
        var k :| 0 <= k < |ss| && Spends(ss[k], true);
        assert ss[1..][k - 1] == ss[k];
      }
      if !AnySpends(ss, true) {
        forall k | 0 <= k < |ss| - 1 ensures !Spends(ss[1..][k], true) {
          assert ss[1..][k] == ss[k + 1];
        }
      }
    }
  }

  // -- a unit's own turns -----------------------------------------------------------

  function TickCooldowns(u: UnitState): UnitState {
    u.(cooldowns := seq(|u.cooldowns|, i requires 0 <= i < |u.cooldowns| => if u.cooldowns[i] > 0 then u.cooldowns[i] - 1 else 0),
       charge := u.charge + 1)
  }

  function UseSkill(u: UnitState, slot: int): UnitState {
    if 0 <= slot < |u.cooldowns| && slot < |u.cdTurns| then u.(cooldowns := u.cooldowns[slot := u.cdTurns[slot]]) else u
  }

  function TickDurations(u: UnitState): UnitState {
    u.(statuses := Kept(u.statuses, false))
  }

  /** A living unit that is gauge-blocked spends a turn of its blocks. */
  function AgeUnit(u: UnitState): UnitState {
    if Alive(u) && Blocked(u) then u.(statuses := Kept(u.statuses, true)) else u
  }

  function Clamp(x: real): real { if x <= 0.0 then 0.0 else if x >= FULL then FULL else x }

  /** Taking the turn empties the gauge; a banked gain then lands, unless the unit is blocked. */
  function SpendGauge(u: UnitState): UnitState {
    if u.pendingScv > 0.0 && Blocked(u) then u.(scv := 0.0, pendingScv := 0.0)
    else if u.pendingScv != 0.0 then u.(scv := Clamp(u.pendingScv), pendingScv := 0.0)
    else u.(scv := 0.0)
  }

  /** Damage and healing over time at the start of the unit's own turn. */
  function TickHp(u: UnitState): UnitState {
    var dot, hot := DotOf(u.statuses), HotOf(u.statuses);
    var low := if dot >= u.hp then 0 else u.hp - dot;
    u.(hp := if hot == 0 then low else if low + hot >= u.maxHp then u.maxHp else low + hot)
  }

  /** What the client is shown for the tick: the hit points actually removed. */
  function TickDealt(u: UnitState): nat {
    if DotOf(u.statuses) <= u.hp then DotOf(u.statuses) else u.hp
  }

  // -- skill slots ------------------------------------------------------------------

  predicate UltimateReady(u: UnitState) {
    u.charge >= if ULTIMATE_SLOT >= |u.cdTurns| then 0 else u.ultCharge
  }

  predicate Usable(u: UnitState, slot: nat) {
    && slot < |u.cooldowns| && slot <= ULTIMATE_SLOT
    && !Sealed(u, slot)
    && u.cooldowns[slot] == 0
    && (slot == ULTIMATE_SLOT ==> UltimateReady(u))
  }

  function UsableFrom(u: UnitState, slot: nat): (s: seq<nat>)
    ensures forall k :: k in s <==> slot <= k && Usable(u, k)
    decreases ULTIMATE_SLOT + 1 - slot
  {
    if slot > ULTIMATE_SLOT then []
    else (if Usable(u, slot) then [slot] else []) + UsableFrom(u, slot + 1)
  }

  /** The legal buttons; the basic attack when nothing else is. */
  function UsableSlots(u: UnitState): (s: seq<nat>)
    ensures forall k :: Usable(u, k) ==> k in s
    ensures s == [0] || forall k :: k in s ==> Usable(u, k)
    ensures s != []
  {
    var s := UsableFrom(u, 0);
    if s == [] then [0] else s
  }

  // -- the field --------------------------------------------------------------------

  function Find(us: seq<UnitState>, order: nat): (i: Option<nat>)
    ensures i.Some? ==> i.value < |us| && us[i.value].order == order
    ensures i.None? ==> forall k :: 0 <= k < |us| ==> us[k].order != order
  {
    if us == [] then None
    else if us[|us| - 1].order == order then Some(|us| - 1)
    else Find(us[..|us| - 1], order)
  }

  predicate DistinctOrders(us: seq<UnitState>) {
    forall i, j :: 0 <= i < j < |us| ==> us[i].order != us[j].order
  }

  ghost predicate SameOrders(us': seq<UnitState>, us: seq<UnitState>) {
    |us'| == |us| && forall k :: 0 <= k < |us| ==> us'[k].order == us[k].order
  }

  predicate ValidField(us: seq<UnitState>) {
    forall i :: 0 <= i < |us| ==> ValidUnit(us[i])
  }

  predicate AnyAlive(us: seq<UnitState>) {
    exists i :: 0 <= i < |us| && Alive(us[i])
  }

  predicate TeamAlive(us: seq<UnitState>, team: int) {
    exists i :: 0 <= i < |us| && us[i].team == team && Alive(us[i])
  }

  predicate AnyFillable(us: seq<UnitState>) {
    exists i :: 0 <= i < |us| && Alive(us[i]) && !Blocked(us[i])
  }

  function RacerOf(u: UnitState): Racer {
    Racer(Alive(u), !Blocked(u), EffectiveSpd(u), u.team, u.index)
  }

  function Racers(us: seq<UnitState>): (r: seq<Racer>)
    ensures |r| == |us| && ValidRacers(r)
    ensures forall i :: 0 <= i < |us| ==> r[i] == RacerOf(us[i])
  {
    seq(|us|, i requires 0 <= i < |us| => RacerOf(us[i]))
  }

  function Gauges(us: seq<UnitState>): (g: seq<real>)
    ensures |g| == |us|
    ensures ValidField(us) ==> ValidGauges(Racers(us), g)
  {
    seq(|us|, i requires 0 <= i < |us| => us[i].scv)
  }

  function WithGauges(us: seq<UnitState>, g: seq<real>): (us': seq<UnitState>)
    requires |g| == |us|
    ensures |us'| == |us|
    ensures forall i :: 0 <= i < |us| ==> us'[i] == us[i].(scv := g[i])
  {
    seq(|us|, i requires 0 <= i < |us| => us[i].(scv := g[i]))
  }

  function Orders(us: seq<UnitState>, q: seq<nat>): (o: seq<nat>)
    requires forall k :: 0 <= k < |q| ==> q[k] < |us|
    ensures |o| == |q|
    ensures forall k :: 0 <= k < |q| ==> o[k] == us[q[k]].order
  {
    seq(|q|, k requires 0 <= k < |q| => us[q[k]].order)
  }

  lemma FindsPosition(us: seq<UnitState>, i: nat)
    requires DistinctOrders(us) && i < |us|
    ensures Find(us, us[i].order) == Some(i)
  {
  }

  /** Gauges do not enter the racers: only status, life, team and slot do. */
  lemma GaugesLeaveRacers(us: seq<UnitState>, g: seq<real>)
    requires |g| == |us|
    ensures Racers(WithGauges(us, g)) == Racers(us)
    ensures Gauges(WithGauges(us, g)) == g
  {
    var us' := WithGauges(us, g);
    forall i | 0 <= i < |us| ensures RacerOf(us'[i]) == RacerOf(us[i]) {
      assert us'[i].statuses == us[i].statuses;
      assert Blocked(us'[i]) == Blocked(us[i]);
    }
  }
}
