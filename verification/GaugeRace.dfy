/** The move-gauge race, on plain gauges and speeds.

    A unit's gauge runs from 0 to FULL at the unit's own speed; the fullest unit acts and
    its gauge is emptied. This module holds the race itself: the ordering of simultaneous
    finishers, one pass of the race, and the clock of a whole race. The turn queue and the
    real turns of a battle are both runs of this race. */
module GaugeRace {
  import opened Wrappers

  const FULL: real := 100.0

  /** What the race needs to know of a unit. `moves` is false while its gauge may not rise. */
  datatype Racer = Racer(live: bool, moves: bool, spd: real, team: int, index: int)

  predicate ValidRacers(r: seq<Racer>) {
    forall i :: 0 <= i < |r| ==> r[i].spd >= 1.0
  }

  predicate ValidGauges(r: seq<Racer>, g: seq<real>) {
    && |g| == |r|
    && forall i :: 0 <= i < |g| ==> 0.0 <= g[i] <= FULL
  }

  /** Faster first, then the lower team, then the lower slot. */
  predicate Beats(a: Racer, b: Racer) {
    || a.spd > b.spd
    || (a.spd == b.spd && a.team < b.team)
    || (a.spd == b.spd && a.team == b.team && a.index < b.index)
  }

  /** The total order that decides between simultaneous finishers: rank, then position. */
  predicate Leads(r: seq<Racer>, i: nat, j: nat)
    requires i < |r| && j < |r|
  {
    Beats(r[i], r[j]) || (!Beats(r[j], r[i]) && i <= j)
  }

  /** The first of the best-ranked candidates among the first `k` positions. */
  function Best(r: seq<Racer>, c: seq<bool>, k: nat): (b: Option<nat>)
    requires k <= |r| == |c|
    ensures b.None? <==> forall i :: 0 <= i < k ==> !c[i]
    ensures b.Some? ==> b.value < k && c[b.value]
    ensures b.Some? ==> forall j :: 0 <= j < k && c[j] ==> Leads(r, b.value, j)
  {
    if k == 0 then None
    else
      var b := Best(r, c, k - 1);
      if c[k - 1] && (b.None? || Beats(r[k - 1], r[b.value])) then Some(k - 1) else b
  }

  predicate Mover(r: seq<Racer>, i: nat)
    requires i < |r|
  {
    r[i].live && r[i].moves
  }

  function FullMask(r: seq<Racer>, g: seq<real>): (c: seq<bool>)
    requires |g| == |r|
    ensures |c| == |r|
  {
    seq(|r|, i requires 0 <= i < |r| => r[i].live && g[i] >= FULL)
  }

  predicate SomeoneFull(r: seq<Racer>, g: seq<real>)
    requires |g| == |r|
  {
    exists i :: 0 <= i < |r| && r[i].live && g[i] >= FULL
  }

  predicate SomeoneMoves(r: seq<Racer>) {
    exists i :: 0 <= i < |r| && Mover(r, i)
  }

  /** Time a gauge still needs, for a racer that moves. */
  function Remaining(r: seq<Racer>, g: seq<real>, i: nat): real
    requires ValidRacers(r) && i < |r| == |g|
  {
    (FULL - g[i]) / r[i].spd
  }

  /** The least time any of the first `k` movers still needs. */
  function LeastGap(r: seq<Racer>, g: seq<real>, k: nat): (t: Option<real>)
    requires ValidRacers(r) && k <= |r| == |g|
    ensures t.None? <==> forall i :: 0 <= i < k ==> !Mover(r, i)
    ensures t.Some? ==> exists i :: 0 <= i < k && Mover(r, i) && t.value == Remaining(r, g, i)
    ensures t.Some? ==> forall i :: 0 <= i < k && Mover(r, i) ==> t.value <= Remaining(r, g, i)
  {
    if k == 0 then None
    else
      var t := LeastGap(r, g, k - 1);
      if !Mover(r, k - 1) then t
      else if t.None? || Remaining(r, g, k - 1) < t.value then Some(Remaining(r, g, k - 1))
      else t
  }

  function Min(a: real, b: real): real { if a <= b then a else b }

  /** Every mover's gauge after `t` more time, capped at FULL. */
  function Advance(r: seq<Racer>, g: seq<real>, t: real): (g': seq<real>)
    requires |g| == |r|
    ensures |g'| == |r|
  {
    seq(|r|, i requires 0 <= i < |r| => if Mover(r, i) then Min(FULL, g[i] + t * r[i].spd) else g[i])
  }

  /** Time to the next full gauge: none if somebody is full, or if nobody can fill. */
  function Wait(r: seq<Racer>, g: seq<real>): real
    requires ValidRacers(r) && |g| == |r|
  {
    if SomeoneFull(r, g) then 0.0
    else match LeastGap(r, g, |r|)
         case None => 0.0
         case Some(t) => t
  }

  /** The gauges once the next full gauge is reached. */
  function Settle(r: seq<Racer>, g: seq<real>): (g': seq<real>)
    requires ValidRacers(r) && |g| == |r|
    ensures |g'| == |r|
  {
    if SomeoneFull(r, g) then g else Advance(r, g, Wait(r, g))
  }

  /** Who acts next, and nobody when no gauge is full and none can fill. */
  function Next(r: seq<Racer>, g: seq<real>): (b: Option<nat>)
    requires ValidRacers(r) && |g| == |r|
    ensures b.Some? ==> b.value < |r|
  {
    Best(r, FullMask(r, Settle(r, g)), |r|)
  }

  // -- one pass, exactly ------------------------------------------------------------

  lemma NoTime(t: real, spd: real)
    requires t == 0.0
    ensures t * spd == 0.0
  {
  }

  lemma {:induction false} DivLe(t: real, a: real, b: real)
    requires b > 0.0
    ensures t <= a / b <==> t * b <= a
    ensures t == a / b <==> t * b == a
  {
    var q := a / b;
    assert q * b == a;
    assert (q - t) * b == a - t * b;
  }

  /** A wait no longer than any mover needs never clips a gauge, and fills the nearest one. */
  lemma AdvanceOne(r: seq<Racer>, g: seq<real>, t: real, i: nat)
    requires ValidRacers(r) && ValidGauges(r, g) && i < |r| && Mover(r, i)
    requires 0.0 <= t <= Remaining(r, g, i)
    ensures g[i] <= g[i] + t * r[i].spd <= FULL
    ensures Advance(r, g, t)[i] == g[i] + t * r[i].spd
    ensures t == Remaining(r, g, i) <==> Advance(r, g, t)[i] == FULL
  {
    DivLe(t, FULL - g[i], r[i].spd);
    assert t * r[i].spd >= 0.0;
  }

  lemma WaitIsLeast(r: seq<Racer>, g: seq<real>)
    requires ValidRacers(r) && ValidGauges(r, g)
    ensures Wait(r, g) >= 0.0
    ensures !SomeoneFull(r, g) ==> forall i :: 0 <= i < |r| && Mover(r, i) ==> Wait(r, g) <= Remaining(r, g, i)
    ensures !SomeoneFull(r, g) && SomeoneMoves(r) ==> exists i :: 0 <= i < |r| && Mover(r, i) && Wait(r, g) == Remaining(r, g, i)
  {
    forall i | 0 <= i < |r| ensures Remaining(r, g, i) >= 0.0 {
      DivLe(0.0, FULL - g[i], r[i].spd);
    }
  }

  /** Settling never overshoots: a mover gains exactly its speed times the wait, unclipped. */
  lemma SettleOne(r: seq<Racer>, g: seq<real>, i: nat)
    requires ValidRacers(r) && ValidGauges(r, g) && i < |r|
    ensures 0.0 <= Settle(r, g)[i] <= FULL
    ensures Settle(r, g)[i] == if Mover(r, i) then g[i] + Wait(r, g) * r[i].spd else g[i]
  {
    hide LeastGap, Remaining;
    if SomeoneFull(r, g) {
      NoTime(Wait(r, g), r[i].spd);
    } else if Mover(r, i) {
      WaitIsLeast(r, g);
      AdvanceOne(r, g, Wait(r, g), i);
    }
  }

  /** After settling somebody is full, unless nobody is and nobody can fill. */
  lemma SettleFills(r: seq<Racer>, g: seq<real>)
    requires ValidRacers(r) && ValidGauges(r, g)
    ensures Wait(r, g) >= 0.0
    ensures SomeoneFull(r, Settle(r, g)) <==> SomeoneFull(r, g) || SomeoneMoves(r)
  {
    WaitIsLeast(r, g);
    if !SomeoneFull(r, g) {
      if SomeoneMoves(r) {
        var m :| 0 <= m < |r| && Mover(r, m) && Wait(r, g) == Remaining(r, g, m);
        AdvanceOne(r, g, Wait(r, g), m);
        assert r[m].live && Settle(r, g)[m] >= FULL;
      } else {
        assert Settle(r, g) == g;
      }
    }
  }

  lemma SettleValid(r: seq<Racer>, g: seq<real>)
    requires ValidRacers(r) && ValidGauges(r, g)
    ensures ValidGauges(r, Settle(r, g))
  {
    forall i | 0 <= i < |r| ensures 0.0 <= Settle(r, g)[i] <= FULL {
      SettleOne(r, g, i);
    }
  }

  lemma NextIsFull(r: seq<Racer>, g: seq<real>)
    requires ValidRacers(r) && ValidGauges(r, g)
    ensures Next(r, g).Some? <==> SomeoneFull(r, g) || SomeoneMoves(r)
    ensures Next(r, g).Some? ==> r[Next(r, g).value].live && Settle(r, g)[Next(r, g).value] == FULL
    ensures Next(r, g).Some? ==> forall j :: 0 <= j < |r| && r[j].live && Settle(r, g)[j] >= FULL ==> Leads(r, Next(r, g).value, j)
  {
    SettleFills(r, g);
    SettleValid(r, g);
    var c := FullMask(r, Settle(r, g));
    if SomeoneFull(r, g) || SomeoneMoves(r) {
      var i :| 0 <= i < |r| && r[i].live && Settle(r, g)[i] >= FULL;
      assert c[i];
    }
    if Next(r, g).Some? {
      assert c[Next(r, g).value];
      forall j | 0 <= j < |r| && r[j].live && Settle(r, g)[j] >= FULL ensures Leads(r, Next(r, g).value, j) {
        assert c[j];
      }
    }
  }
}
