/** A unit as the battle holds it: an object whose fields its methods update in place. */
module BattleUnit {
  import opened GaugeRace
  import opened Units
  import opened Turns
  import opened Resume

  /** What one turn of the clock leaves of a status, and what it takes off. */
  function Stays(st: Active, gauge: bool): seq<Active> {
    if !Spends(st, gauge) then [st] else if st.remaining.value - 1 <= 0 then [] else [Spent(st)]
  }

  function Goes(st: Active, gauge: bool): seq<Active> {
    if Spends(st, gauge) && st.remaining.value - 1 <= 0 then [Spent(st)] else []
  }

  lemma AgesFrom(all: seq<Active>, n: nat, gauge: bool)
    requires n < |all|
    ensures Kept(all[n..], gauge) == Stays(all[n], gauge) + Kept(all[n + 1..], gauge)
    ensures Expired(all[n..], gauge) == Goes(all[n], gauge) + Expired(all[n + 1..], gauge)
  {
    assert all[n..][1..] == all[n + 1..];
  }

  lemma Regroup(a: seq<Active>, b: seq<Active>, c: seq<Active>)
    ensures a + (b + c) == (a + b) + c
    ensures a + [] == a
  {
  }

  /** The list in place: its `n`th old status stands right behind what was kept so far. */
  lemma Shift(kept: seq<Active>, all: seq<Active>, n: nat, x: Active)
    requires n < |all|
    ensures var ss, at := kept + all[n..], |kept|;
            && ss[..at] + ss[at + 1..] == kept + all[n + 1..]
            && ss == (kept + [all[n]]) + all[n + 1..]
            && ss[at := x] == (kept + [x]) + all[n + 1..]
  {
  }

  class Unit {
    const order: nat
    const team: int
    const charId: int
    const spd: real
    const cdTurns: seq<nat>
    const ultCharge: nat
    var index: int
    var hp: nat
    var maxHp: nat
    var scv: real
    var pendingScv: real
    var charge: nat
    var cooldowns: seq<nat>
    var statuses: seq<Active>
    var dmgDone: nat
    var dmgTaken: nat
    var healed: nat

    /** The unit as a value. */
    function View(): (u: UnitState)
      reads this
    {
      UnitState(order, team, index, charId, spd, cdTurns, ultCharge, hp, maxHp, scv, pendingScv, charge, cooldowns,
                statuses, dmgDone, dmgTaken, healed)
    }

    constructor (u: UnitState)
      ensures View() == u
    {
      order, team, index, charId, spd, cdTurns, ultCharge := u.order, u.team, u.index, u.charId, u.spd, u.cdTurns, u.ultCharge;
      hp, maxHp, scv, pendingScv, charge, cooldowns := u.hp, u.maxHp, u.scv, u.pendingScv, u.charge, u.cooldowns;
      statuses, dmgDone, dmgTaken, healed := u.statuses, u.dmgDone, u.dmgTaken, u.healed;
    }

    /** The gauge runs for some time; a blocked gauge does not. */
    method FillGauge(seconds: real)
      modifies this`scv
      ensures var u := old(View());
              View() == u.(scv := if Blocked(u) then u.scv else Min(FULL, u.scv + seconds * EffectiveSpd(u)))
    {
      if Blocked(View()) { return; }
      scv := Min(FULL, scv + seconds * EffectiveSpd(View()));
    }

    method Reload()
      modifies this`cooldowns, this`charge
      ensures View() == TickCooldowns(old(View()))
    {
      cooldowns := seq(|cooldowns|, i requires 0 <= i < |cooldowns| reads this => if cooldowns[i] > 0 then cooldowns[i] - 1 else 0);
      charge := charge + 1;
    }

    method Use(slot: int)
      modifies this`cooldowns
      ensures View() == UseSkill(old(View()), slot)
    {
      if 0 <= slot < |cooldowns| && slot < |cdTurns| {
        cooldowns := cooldowns[slot := cdTurns[slot]];
      }
    }

    /** Spend a turn of every status, or of the gauge blocks alone, and drop what runs out. */
    method Age(gauge: bool) returns (expired: seq<Active>)
      modifies this`statuses
      ensures View() == old(View()).(statuses := Kept(old(statuses), gauge))
      ensures expired == Expired(old(statuses), gauge)
    {
      var all, at := statuses, 0;
      ghost var kept: seq<Active> := [];
      expired := [];
      for n := 0 to |all|
        invariant at == |kept| && statuses == kept + all[n..]
        invariant Kept(all, gauge) == kept + Kept(all[n..], gauge)
        invariant Expired(all, gauge) == expired + Expired(all[n..], gauge)
      {
        var st := all[n];
        AgesFrom(all, n, gauge);
        var next := if Spends(st, gauge) then Spent(st) else st;
        Shift(kept, all, n, next);
        hide Kept, Expired, Spent, Spends;
        Regroup(kept, Stays(st, gauge), Kept(all[n + 1..], gauge));
        Regroup(expired, Goes(st, gauge), Expired(all[n + 1..], gauge));
        if Spends(st, gauge) {
          if st.remaining.value - 1 <= 0 {
            statuses := statuses[..at] + statuses[at + 1..];
            expired := expired + [next];
          } else {
            statuses := statuses[at := next];
            kept, at := kept + [next], at + 1;
          }
        } else {
          kept, at := kept + [st], at + 1;
        }
      }
    }

    /** The turn taken empties the gauge, and a banked gain lands unless the unit is blocked. */
    method SpendTurn()
      modifies this`scv, this`pendingScv
      ensures View() == SpendGauge(old(View()))
    {
      scv := 0.0;
      var pending := pendingScv;
      if pending > 0.0 && Blocked(View()) {
        pendingScv := 0.0;
        pending := 0.0;
      }
      if pending != 0.0 {
        scv := Clamp(scv + pending);
        pendingScv := 0.0;
      }
    }

    /** Damage and healing over time. -> the hit points the tick removed. */
    method Suffer() returns (dealt: nat)
      modifies this`hp
      ensures View() == TickHp(old(View())) && dealt == TickDealt(old(View()))
    {
      var dot, hot := DotOf(statuses), HotOf(statuses);
      dealt := if dot <= hp then dot else hp;
      if dot > 0 { hp := Lower(hp, dot); }
      if hot > 0 { hp := if hp + hot >= maxHp then maxHp else hp + hot; }
    }

    /** An effect of the engine takes hold. */
    method Feel(e: Effect)
      modifies this
      ensures View() == Struck(old(View()), e)
    {
      match e
      case Strike(_, n) => hp := Lower(hp, n);
      case Heal(_, n) =>
        var to := if hp + n <= maxHp then hp + n else maxHp;
        if hp > 0 && to > hp { hp := to; }
      case Gauge(_, d) => if !(d > 0.0 && Blocked(View())) { scv := Clamp(scv + d); }
      case BankGauge(_, d) => if !(d > 0.0 && Blocked(View())) { pendingScv := pendingScv + d; }
      case Reload(_, n) =>
        cooldowns := seq(|cooldowns|, k requires 0 <= k < |cooldowns| reads this => if cooldowns[k] + n > 0 then cooldowns[k] + n else 0);
      case Grant(_, st) => statuses := Put(statuses, st);
      case Strip(_, id) => statuses := Drop(statuses, id);
      case Tally(_, d, t, h) => dmgDone, dmgTaken, healed := dmgDone + d, dmgTaken + t, healed + h;
    }

    function ToState(): SavedUnit
      reads this
    {
      SavedUnit(order, hp, maxHp, scv, charge, cooldowns, dmgDone, dmgTaken, healed, statuses)
    }

    method RestoreState(sv: SavedUnit)
      modifies this
      ensures View() == Patched(old(View()), sv)
      ensures sv.order == order ==> ToState() == sv
    {
      hp, maxHp, scv, charge, cooldowns := sv.hp, sv.maxHp, sv.scv, sv.charge, sv.cooldowns;
      dmgDone, dmgTaken, healed, statuses := sv.dmgDone, sv.dmgTaken, sv.healed, sv.statuses;
    }
  }
}
