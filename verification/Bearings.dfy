/** What really changes among the statuses of a field, step by step: every change that is queued
    for the client happened, and every change that happened is queued, but for the ones the
    client counts out by itself. */
module Bearings {
  import opened Wrappers
  import opened Units
  import opened StatusRows
  import opened TurnQueue
  import opened Turns
  import opened News

  predicate Has(ss: seq<Active>, id: int) {
    exists k :: 0 <= k < |ss| && ss[k].id == id
  }

  /** A unit holds one status of an id at most. */
  predicate OneEach(ss: seq<Active>) {
    forall i, j :: 0 <= i < j < |ss| ==> ss[i].id != ss[j].id
  }

  predicate Singles(us: seq<UnitState>) {
    forall i :: 0 <= i < |us| ==> OneEach(us[i].statuses)
  }

  /** The unit of this order holds a status of this id. */
  predicate Bears(us: seq<UnitState>, k: Key) {
    var i := Find(us, k.0);
    i.Some? && Has(us[i.value].statuses, k.1)
  }

  /** Is the status held, once these changes have happened to it? */
  function Moved(before: bool, cs: seq<Change>, k: Key): bool {
    match LastChange(cs, k)
    case None => before
    case Some(c) => c.applied
  }

  /** Every removal of `k` among the changes finds it held at that moment. */
  predicate Borne(before: bool, cs: seq<Change>, k: Key)
    decreases |cs|
  {
    cs == [] ||
    (var n := |cs| - 1;
     && Borne(before, cs[..n], k)
     && (KeyOf(cs[n]) == k && !cs[n].applied ==> Moved(before, cs[..n], k)))
  }

  lemma {:induction false} BorneBoth(before: bool, a: seq<Change>, b: seq<Change>, k: Key)
    ensures Moved(before, a + b, k) == Moved(Moved(before, a, k), b, k)
    ensures Borne(before, a + b, k) <==> Borne(before, a, k) && Borne(Moved(before, a, k), b, k)
    decreases |b|
  {
    if b == [] {
      assert a + b == a;
    } else {
      var n := |b| - 1;
      BorneBoth(before, a, b[..n], k);
      assert (a + b)[..|a + b| - 1] == a + b[..n];
    }
  }

  // -- one unit ---------------------------------------------------------------------

  lemma {:induction false} HasCons(ss: seq<Active>, id: int)
    requires ss != []
    ensures Has(ss, id) <==> ss[0].id == id || Has(ss[1..], id)
  {
    if Has(ss, id) {
      var k :| 0 <= k < |ss| && ss[k].id == id;
      if k > 0 { assert ss[1..][k - 1] == ss[k]; }
    }
    if Has(ss[1..], id) {
      var k :| 0 <= k < |ss[1..]| && ss[1..][k].id == id;
      assert ss[k + 1] == ss[1..][k];
    }
  }

  lemma OneEachCons(s: Active, ss: seq<Active>)
    ensures OneEach([s] + ss) <==> OneEach(ss) && !Has(ss, s.id)
  {
    var all := [s] + ss;
    if OneEach(all) {
      forall i, j | 0 <= i < j < |ss| ensures ss[i].id != ss[j].id {
        assert all[i + 1] == ss[i] && all[j + 1] == ss[j];
      }
      forall k | 0 <= k < |ss| ensures ss[k].id != s.id {
        assert all[k + 1] == ss[k] && all[0] == s;
      }
    }
    if OneEach(ss) && !Has(ss, s.id) {
      forall i, j | 0 <= i < j < |all| ensures all[i].id != all[j].id {
        assert all[j] == ss[j - 1];
      }
    }
  }

  lemma {:induction false} PutHas(ss: seq<Active>, st: Active, id: int)
    ensures Has(Put(ss, st), id) <==> id == st.id || Has(ss, id)
    ensures OneEach(ss) ==> OneEach(Put(ss, st))
  {
    if ss == [] {
      HasCons([st], id);
    } else {
      assert ss == [ss[0]] + ss[1..];
      HasCons(ss, id);
      OneEachCons(ss[0], ss[1..]);
      if ss[0].id == st.id {
        HasCons([st] + ss[1..], id);
        assert ([st] + ss[1..])[1..] == ss[1..];
        OneEachCons(st, ss[1..]);
      } else {
        PutHas(ss[1..], st, id);
        PutHas(ss[1..], st, ss[0].id);
        HasCons([ss[0]] + Put(ss[1..], st), id);
        assert ([ss[0]] + Put(ss[1..], st))[1..] == Put(ss[1..], st);
        OneEachCons(ss[0], Put(ss[1..], st));
      }
    }
  }

  lemma {:induction false} DropHas(ss: seq<Active>, gone: int, id: int)
    requires OneEach(ss)
    ensures Has(Drop(ss, gone), id) <==> id != gone && Has(ss, id)
    ensures OneEach(Drop(ss, gone))
  {
    if ss != [] {
      assert ss == [ss[0]] + ss[1..];
      HasCons(ss, id);
      OneEachCons(ss[0], ss[1..]);
      if ss[0].id != gone {
        DropHas(ss[1..], gone, id);
        DropHas(ss[1..], gone, ss[0].id);
        HasCons([ss[0]] + Drop(ss[1..], gone), id);
        assert ([ss[0]] + Drop(ss[1..], gone))[1..] == Drop(ss[1..], gone);
        OneEachCons(ss[0], Drop(ss[1..], gone));
      }
    }
  }

  /** A turn of the clock parts the statuses into those kept and those expired. */
  lemma {:induction false} ClockHas(ss: seq<Active>, gauge: bool, id: int)
    requires OneEach(ss)
    ensures Has(ss, id) <==> Has(Kept(ss, gauge), id) || Has(Expired(ss, gauge), id)
    ensures !(Has(Kept(ss, gauge), id) && Has(Expired(ss, gauge), id))
    ensures OneEach(Kept(ss, gauge)) && OneEach(Expired(ss, gauge))
  {
    if ss != [] {
      assert ss == [ss[0]] + ss[1..];
      HasCons(ss, id);
      OneEachCons(ss[0], ss[1..]);
      ClockHas(ss[1..], gauge, id);
      ClockHas(ss[1..], gauge, ss[0].id);
      hide Spends;
      if !Spends(ss[0], gauge) {
        ConsHas(ss[0], Kept(ss[1..], gauge), id);
      } else if ss[0].remaining.value - 1 <= 0 {
        ConsHas(Spent(ss[0]), Expired(ss[1..], gauge), id);
      } else {
        ConsHas(Spent(ss[0]), Kept(ss[1..], gauge), id);
      }
    }
  }

  lemma ConsHas(s: Active, ss: seq<Active>, id: int)
    ensures Has([s] + ss, id) <==> s.id == id || Has(ss, id)
    ensures OneEach([s] + ss) <==> OneEach(ss) && !Has(ss, s.id)
  {
    HasCons([s] + ss, id);
    assert ([s] + ss)[1..] == ss;
    OneEachCons(s, ss);
  }

  // -- one unit of the field ----------------------------------------------------------

  /** The same units, their statuses moved by these changes. */
  ghost predicate FieldMoves(us: seq<UnitState>, us': seq<UnitState>, cs: seq<Change>) {
    && SameOrders(us', us) && Singles(us')
    && forall k: Key :: Bears(us', k) == Moved(Bears(us, k), cs, k) && Borne(Bears(us, k), cs, k)
  }

  lemma FieldMovesOn(us: seq<UnitState>, us1: seq<UnitState>, us2: seq<UnitState>, a: seq<Change>, b: seq<Change>)
    requires FieldMoves(us, us1, a) && FieldMoves(us1, us2, b)
    ensures FieldMoves(us, us2, a + b)
  {
    forall k: Key ensures Bears(us2, k) == Moved(Bears(us, k), a + b, k) && Borne(Bears(us, k), a + b, k) {
      BorneBoth(Bears(us, k), a, b, k);
    }
  }

  /** Where no unit's statuses differ, nothing has moved. */
  lemma FieldStays(us: seq<UnitState>, us': seq<UnitState>)
    requires Singles(us) && SameOrders(us', us)
    requires forall i :: 0 <= i < |us| ==> us'[i].statuses == us[i].statuses
    ensures FieldMoves(us, us', [])
  {
    forall k: Key ensures Bears(us', k) == Bears(us, k) {
      SameOrdersFind(us, us', k.0);
    }
  }

  lemma {:induction false} OthersUnmoved(before: bool, cs: seq<Change>, order: nat, k: Key)
    requires (forall j :: 0 <= j < |cs| ==> cs[j].target == order) && k.0 != order
    ensures Moved(before, cs, k) == before && Borne(before, cs, k)
    decreases |cs|
  {
    if cs != [] { OthersUnmoved(before, cs[..|cs| - 1], order, k); }
  }

  lemma BearsAt(us: seq<UnitState>, i: nat, k: Key)
    requires DistinctOrders(us) && i < |us| && us[i].order == k.0
    ensures Bears(us, k) == Has(us[i].statuses, k.1)
  {
    FindsPosition(us, i);
  }

  lemma OneUnit(us: seq<UnitState>, i: nat, u: UnitState, k: Key)
    requires DistinctOrders(us) && i < |us| && u.order == us[i].order && k.0 != u.order
    ensures Bears(us[i := u], k) == Bears(us, k)
  {
    SameOrdersFind(us, us[i := u], k.0);
  }

  ghost predicate UnitMoves(u: UnitState, u': UnitState, cs: seq<Change>) {
    forall id: int ::
      && Has(u'.statuses, id) == Moved(Has(u.statuses, id), cs, (u.order, id))
      && Borne(Has(u.statuses, id), cs, (u.order, id))
  }

  /** One unit's statuses move; the changes are its own. */
  lemma OneMoves(us: seq<UnitState>, i: nat, u: UnitState, cs: seq<Change>)
    requires DistinctOrders(us) && Singles(us) && i < |us| && u.order == us[i].order && OneEach(u.statuses)
    requires forall j :: 0 <= j < |cs| ==> cs[j].target == u.order
    requires UnitMoves(us[i], u, cs)
    ensures FieldMoves(us, us[i := u], cs)
  {
    var us' := us[i := u];
    assert DistinctOrders(us');
    forall k: Key ensures Bears(us', k) == Moved(Bears(us, k), cs, k) && Borne(Bears(us, k), cs, k) {
      if k.0 == u.order {
        BearsAt(us, i, k);
        BearsAt(us', i, k);
        assert k == (u.order, k.1);
        hide Bears;
        assert Has(u.statuses, k.1) == Moved(Has(us[i].statuses, k.1), cs, k);
      } else {
        OneUnit(us, i, u, k);
        OthersUnmoved(Bears(us, k), cs, u.order, k);
      }
    }
  }

  // -- removals ---------------------------------------------------------------------

  /** The removals of what expired take away exactly that. */
  lemma {:induction false} RemovalsMove(u: UnitState, gone: seq<Active>, before: bool, id: int)
    requires OneEach(gone) && (Has(gone, id) ==> before)
    ensures var k := (u.order, id); var cs := Removals(u, gone);
            Moved(before, cs, k) == (before && !Has(gone, id)) && Borne(before, cs, k)
    decreases |gone|
  {
    var cs := Removals(u, gone);
    if gone != [] {
      var n := |gone| - 1;
      HasSnoc(gone, id);
      RemovalsMove(u, gone[..n], before, id);
      assert cs[..n] == Removals(u, gone[..n]);
    }
  }

  lemma HasSnoc(ss: seq<Active>, id: int)
    requires ss != []
    ensures var n := |ss| - 1; Has(ss, id) <==> Has(ss[..n], id) || ss[n].id == id
    ensures OneEach(ss) ==> OneEach(ss[..|ss| - 1]) && !Has(ss[..|ss| - 1], ss[|ss| - 1].id)
  {
    var n := |ss| - 1;
    if Has(ss, id) && ss[n].id != id {
      var k :| 0 <= k < |ss| && ss[k].id == id;
      assert ss[..n][k].id == id;
    }
  }

  lemma ClockMoves(us: seq<UnitState>, i: nat, gauge: bool, u: UnitState)
    requires DistinctOrders(us) && Singles(us) && i < |us|
    requires u.order == us[i].order && u.statuses == Kept(us[i].statuses, gauge)
    ensures FieldMoves(us, us[i := u], Removals(us[i], Expired(us[i].statuses, gauge)))
  {
    var ss := us[i].statuses;
    var cs := Removals(us[i], Expired(ss, gauge));
    ClockHas(ss, gauge, 0);
    forall id: int
      ensures Has(u.statuses, id) == Moved(Has(ss, id), cs, (u.order, id)) && Borne(Has(ss, id), cs, (u.order, id))
    {
      ClockHas(ss, gauge, id);
      RemovalsMove(us[i], Expired(ss, gauge), Has(ss, id), id);
    }
    OneMoves(us, i, u, cs);
  }

  // -- effects ----------------------------------------------------------------------

  lemma OneChange(before: bool, c: Change, k: Key)
    ensures Moved(before, [c], k) == if KeyOf(c) == k then c.applied else before
    ensures Borne(before, [c], k) <==> (KeyOf(c) == k && !c.applied ==> before)
  {
    assert [c][..0] == [];
    assert Borne(before, [c][..0], k) && Moved(before, [c][..0], k) == before;
  }

  lemma StruckMoves(u: UnitState, e: Effect)
    requires OneEach(u.statuses) && u.order == e.target && (e.Strip? ==> Has(u.statuses, e.id))
    ensures OneEach(Struck(u, e).statuses) && UnitMoves(u, Struck(u, e), ChangeOf(e))
  {
    forall id: int
      ensures Has(Struck(u, e).statuses, id) == Moved(Has(u.statuses, id), ChangeOf(e), (u.order, id))
      ensures Borne(Has(u.statuses, id), ChangeOf(e), (u.order, id))
    {
      match e
      case Grant(t, st) =>
        PutHas(u.statuses, st, id);
        OneChange(Has(u.statuses, id), Change(t, st.id, true, st.remaining), (u.order, id));
      case Strip(t, gone) =>
        DropHas(u.statuses, gone, id);
        OneChange(Has(u.statuses, id), Change(t, gone, false, None), (u.order, id));
      case _ =>
    }
    if e.Grant? { PutHas(u.statuses, e.status, 0); }
    if e.Strip? { DropHas(u.statuses, e.id, 0); }
  }

  lemma LandMoves(us: seq<UnitState>, e: Effect)
    requires DistinctOrders(us) && Singles(us)
    ensures FieldMoves(us, Land(us, e), if Lands(us, e) then ChangeOf(e) else [])
  {
    if Lands(us, e) {
      var i := Find(us, e.target).value;
      StruckMoves(us[i], e);
      OneMoves(us, i, Struck(us[i], e), ChangeOf(e));
    } else {
      FieldStays(us, us);
    }
  }

  /** Effects move the field's statuses as the changes they report say. */
  lemma {:induction false} LandAllMoves(us: seq<UnitState>, es: seq<Effect>)
    requires DistinctOrders(us) && Singles(us)
    ensures FieldMoves(us, LandAll(us, es), ChangesOf(Landed(us, es)))
    decreases |es|
  {
    hide Land, Lands, FieldMoves;
    if es == [] {
      FieldStays(us, us);
    } else {
      var n := |es| - 1;
      var us1 := LandAll(us, es[..n]);
      LandAllMoves(us, es[..n]);
      MovesKeepDistinct(us, us1, ChangesOf(Landed(us, es[..n])));
      LandMoves(us1, es[n]);
      FieldMovesOn(us, us1, LandAll(us, es), ChangesOf(Landed(us, es[..n])), if Lands(us1, es[n]) then ChangeOf(es[n]) else []);
      ReportsLast(us, es);
    }
  }

  lemma MovesKeepDistinct(us: seq<UnitState>, us': seq<UnitState>, cs: seq<Change>)
    requires DistinctOrders(us) && FieldMoves(us, us', cs)
    ensures DistinctOrders(us') && Singles(us') && |us'| == |us|
  {
  }

  lemma ReportsLast(us: seq<UnitState>, es: seq<Effect>)
    requires es != []
    ensures var n := |es| - 1;
            ChangesOf(Landed(us, es)) == ChangesOf(Landed(us, es[..n])) +
              if Lands(LandAll(us, es[..n]), es[n]) then ChangeOf(es[n]) else []
  {
    hide Lands, LandAll;
    var n := |es| - 1;
    var done := Landed(us, es[..n]);
    assert (done + [es[n]])[..|done|] == done;
    assert done + [] == done && ChangesOf(done) + [] == ChangesOf(done);
  }

  // -- ageing and the roll --------------------------------------------------------------

  /** The first `n` units have aged. */
  function AgedUpTo(us: seq<UnitState>, n: nat): (us': seq<UnitState>)
    requires n <= |us|
    ensures |us'| == |us| && forall i :: 0 <= i < |us| ==> us'[i] == if i < n then AgeUnit(us[i]) else us[i]
  {
    seq(|us|, i requires 0 <= i < |us| => if i < n then AgeUnit(us[i]) else us[i])
  }

  lemma AgeOneMoves(us: seq<UnitState>, n: nat)
    requires DistinctOrders(us) && Singles(us) && n < |us|
    ensures FieldMoves(us, us[n := AgeUnit(us[n])], RemovalsOf(us[n]))
  {
    if Alive(us[n]) && Blocked(us[n]) {
      ClockMoves(us, n, true, AgeUnit(us[n]));
    } else {
      FieldStays(us, us[n := AgeUnit(us[n])]);
    }
  }

  lemma {:induction false} AgeMovesTo(us: seq<UnitState>, n: nat)
    requires DistinctOrders(us) && Singles(us) && n <= |us|
    ensures FieldMoves(us, AgedUpTo(us, n), AgeRemovals(us, n))
  {
    hide FieldMoves, AgeUnit, RemovalsOf;
    if n == 0 {
      FieldStays(us, AgedUpTo(us, 0));
    } else {
      var us1 := AgedUpTo(us, n - 1);
      AgeMovesTo(us, n - 1);
      MovesKeepDistinct(us, us1, AgeRemovals(us, n - 1));
      AgeOneMoves(us1, n - 1);
      assert us1[n - 1 := AgeUnit(us1[n - 1])] == AgedUpTo(us, n);
      FieldMovesOn(us, us1, AgedUpTo(us, n), AgeRemovals(us, n - 1), RemovalsOf(us[n - 1]));
    }
  }

  lemma AgeMoves(us: seq<UnitState>)
    requires DistinctOrders(us) && Singles(us)
    ensures FieldMoves(us, AgeUnits(us), AgeRemovals(us, |us|))
  {
    AgeMovesTo(us, |us|);
    assert AgedUpTo(us, |us|) == AgeUnits(us);
  }

  /** What running the clock on blocks takes off, until somebody can fill. */
  function RollChanges(us: seq<UnitState>): seq<Change>
    decreases FieldBlockTurns(us)
  {
    if !AnyAlive(us) || AnyFillable(us) || !AgesSomething(us) then []
    else
      AgeShrinks(us);
      AgeRemovals(us, |us|) + RollChanges(AgeUnits(us))
  }

  lemma GaugesStay(us: seq<UnitState>)
    requires Singles(us)
    ensures FieldMoves(us, us, []) && FieldMoves(us, ForceFastest(us), []) && FieldMoves(us, FillUnits(us), [])
  {
    FieldStays(us, us);
    FieldStays(us, ForceFastest(us));
    FieldStays(us, FillUnits(us));
  }

  lemma {:induction false} UnblockMoves(b: BattleState)
    requires DistinctOrders(b.units) && Singles(b.units)
    ensures FieldMoves(b.units, Unblock(b).units, RollChanges(b.units))
    decreases FieldBlockTurns(b.units)
  {
    hide FieldMoves, ForceFastest, AnyFillable, AnyAlive, AgesSomething;
    GaugesStay(b.units);
    if AnyAlive(b.units) && !AnyFillable(b.units) && AgesSomething(b.units) {
      AgingEnds(b);
      AgeMoves(b.units);
      MovesKeepDistinct(b.units, AgeUnits(b.units), AgeRemovals(b.units, |b.units|));
      UnblockMoves(AgeBlocks(b));
      FieldMovesOn(b.units, AgeUnits(b.units), Unblock(AgeBlocks(b)).units, AgeRemovals(b.units, |b.units|), RollChanges(AgeUnits(b.units)));
    }
  }

  // -- a turn -----------------------------------------------------------------------

  /** From `b` to `b'` these changes happened to the field's statuses, all of them were queued by
      the collapsing rule, and nothing was told. */
  ghost predicate Moves(b: BattleState, b': BattleState, cs: seq<Change>) {
    && FieldMoves(b.units, b'.units, cs)
    && b'.told == b.told && b'.wave == b.wave && b'.rows == QueueAll(b.rows, b.told, b.wave, cs)
  }

  ghost predicate Tidy(b: BattleState) {
    ValidField(b.units) && DistinctOrders(b.units) && Singles(b.units)
  }

  lemma MovesOn(b: BattleState, b1: BattleState, b2: BattleState, cs1: seq<Change>, cs2: seq<Change>)
    requires Moves(b, b1, cs1) && Moves(b1, b2, cs2)
    ensures Moves(b, b2, cs1 + cs2)
  {
    FieldMovesOn(b.units, b1.units, b2.units, cs1, cs2);
    QueueAllAdds(b.rows, b.told, b.wave, cs1, cs2);
  }

  lemma MovesTidy(b: BattleState, b': BattleState, cs: seq<Change>)
    requires Tidy(b) && Moves(b, b', cs) && ValidField(b'.units)
    ensures Tidy(b')
  {
    MovesKeepDistinct(b.units, b'.units, cs);
  }

  /** Nothing happens to any status, and no row is queued. */
  lemma Still(b: BattleState, b': BattleState)
    requires Tidy(b) && SameOrders(b'.units, b.units)
    requires forall i :: 0 <= i < |b.units| ==> b'.units[i].statuses == b.units[i].statuses
    requires b'.told == b.told && b'.wave == b.wave && b'.rows == b.rows
    ensures Moves(b, b', [])
  {
    FieldStays(b.units, b'.units);
  }

  lemma AgeBlocksMoves(b: BattleState)
    requires Tidy(b)
    ensures Moves(b, AgeBlocks(b), AgeRemovals(b.units, |b.units|)) && Tidy(AgeBlocks(b))
  {
    AgeMoves(b.units);
    AgedValid(b);
    MovesTidy(b, AgeBlocks(b), AgeRemovals(b.units, |b.units|));
  }

  lemma {:induction false} UnblockQueues(b: BattleState)
    requires Tidy(b)
    ensures Unblock(b).told == b.told && Unblock(b).wave == b.wave
    ensures Unblock(b).rows == QueueAll(b.rows, b.told, b.wave, RollChanges(b.units))
    decreases FieldBlockTurns(b.units)
  {
    hide FieldMoves, ForceFastest, AnyFillable, AnyAlive, AgesSomething;
    if AnyAlive(b.units) && !AnyFillable(b.units) && AgesSomething(b.units) {
      AgingEnds(b);
      AgeBlocksMoves(b);
      UnblockQueues(AgeBlocks(b));
      QueueAllAdds(b.rows, b.told, b.wave, AgeRemovals(b.units, |b.units|), RollChanges(AgeUnits(b.units)));
    }
  }

  lemma RollIs(b: BattleState)
    requires ValidField(b.units)
    ensures if AnyAlive(b.units) then
              Roll(b).units == FillUnits(Unblock(b).units) && Roll(b).rows == Unblock(b).rows
              && Roll(b).told == Unblock(b).told && Roll(b).wave == Unblock(b).wave
            else Roll(b) == b.(turnOrder := []) && RollChanges(b.units) == []
  {
    UnblockValid(b);
    hide Unblock, FillUnits;
  }

  lemma RollMoves(b: BattleState, round: nat)
    requires Tidy(b)
    ensures Moves(b, Roll(b).(round := round), RollChanges(b.units)) && Tidy(Roll(b).(round := round))
  {
    hide FieldMoves, Unblock, FillUnits, Roll, RollChanges, AnyAlive;
    RollIs(b);
    UnblockMoves(b);
    UnblockQueues(b);
    var b1 := Unblock(b);
    MovesKeepDistinct(b.units, b1.units, RollChanges(b.units));
    GaugesStay(b1.units);
    FieldMovesOn(b.units, b1.units, FillUnits(b1.units), RollChanges(b.units), []);
    assert RollChanges(b.units) + [] == RollChanges(b.units);
    FieldStays(b.units, b.units);
    MovesKeepDistinct(b.units, Roll(b).units, RollChanges(b.units));
  }

  /** What a passive reports. */
  function FireChanges(b: BattleState, es: seq<Effect>): seq<Change> {
    ChangesOf(Landed(b.units, es))
  }

  lemma FireMoves(b: BattleState, es: seq<Effect>)
    requires Tidy(b)
    ensures Moves(b, Fire(b, es), FireChanges(b, es)) && Tidy(Fire(b, es))
  {
    LandAllMoves(b.units, es);
    FireValid(b, es);
    MovesTidy(b, Fire(b, es), FireChanges(b, es));
  }

  /** What a skipped turn takes off its unit. */
  function SkipChanges(b: BattleState, i: nat): seq<Change>
    requires i < |b.units|
  {
    Removals(b.units[i], Expired(b.units[i].statuses, false))
  }

  lemma SkipMoves(b: BattleState, i: nat)
    requires Tidy(b) && i < |b.units|
    ensures Moves(b, Skip(b, i), SkipChanges(b, i)) && Tidy(Skip(b, i))
  {
    ClockMoves(b.units, i, false, Skip(b, i).units[i]);
    SkipValid(b, i);
    MovesTidy(b, Skip(b, i), SkipChanges(b, i));
  }

  lemma TickStill(b: BattleState, i: nat)
    requires Tidy(b) && i < |b.units|
    ensures Moves(b, Tick(b, i), []) && Tidy(Tick(b, i))
  {
    Still(b, Tick(b, i));
    TickValid(b, i);
    MovesTidy(b, Tick(b, i), []);
  }

  // -- the end of the action ------------------------------------------------------------

  /** The actor has reloaded and spent its gauge. */
  function Spent1(b: BattleState, i: nat): BattleState
    requires i < |b.units|
  {
    b.(units := b.units[i := SpendGauge(TickCooldowns(b.units[i]))])
  }

  /** What the after-action passives report. */
  function ActionChanges(b: BattleState, fx: Passives): seq<Change> {
    match Acting(b)
    case None => []
    case Some(i) => FireChanges(Spent1(b, i), fx(AfterAction, Spent1(b, i)))
  }

  /** The actor's own expiries, which the client is left to count out for itself. */
  function OwnLapses(b: BattleState, fx: Passives): seq<Change> {
    match Acting(b)
    case None => []
    case Some(i) => SkipChanges(Fire(Spent1(b, i), fx(AfterAction, Spent1(b, i))), i)
  }

  ghost function Acted(b: BattleState, fx: Passives): BattleState {
    match Acting(b)
    case None => b
    case Some(i) => FinishAction(b, i, fx)
  }

  /** After the action the reports are queued; the actor's own expiries are not. */
  lemma ActedMoves(b: BattleState, fx: Passives)
    requires Tidy(b)
    ensures var b' := Acted(b, fx);
            && Tidy(b') && FieldMoves(b.units, b'.units, ActionChanges(b, fx) + OwnLapses(b, fx))
            && b'.told == b.told && b'.wave == b.wave && b'.rows == QueueAll(b.rows, b.told, b.wave, ActionChanges(b, fx))
  {
    if Acting(b).None? {
      Still(b, b);
      assert ActionChanges(b, fx) + OwnLapses(b, fx) == [];
    } else {
      var i := Acting(b).value;
      var b1 := Spent1(b, i);
      var es := fx(AfterAction, b1);
      var b2 := Fire(b1, es);
      SpentStill(b, i);
      FireMoves(b1, es);
      MovesOn(b, b1, b2, [], FireChanges(b1, es));
      assert [] + FireChanges(b1, es) == FireChanges(b1, es);
      LapseMoves(b2, i);
      hide FieldMoves, Fire, Spent1;
      FieldMovesOn(b.units, b2.units, Acted(b, fx).units, FireChanges(b1, es), SkipChanges(b2, i));
      MovesKeepDistinct(b.units, Acted(b, fx).units, ActionChanges(b, fx) + OwnLapses(b, fx));
    }
  }

  lemma SpentStill(b: BattleState, i: nat)
    requires Tidy(b) && i < |b.units|
    ensures Moves(b, Spent1(b, i), []) && Tidy(Spent1(b, i))
  {
    Still(b, Spent1(b, i));
    MovesTidy(b, Spent1(b, i), []);
  }

  lemma LapseMoves(b: BattleState, i: nat)
    requires Tidy(b) && i < |b.units|
    ensures FieldMoves(b.units, b.units[i := TickDurations(b.units[i])], SkipChanges(b, i))
    ensures ValidField(b.units[i := TickDurations(b.units[i])])
  {
    ClockMoves(b.units, i, false, TickDurations(b.units[i]));
  }

  // -- the start of the next turn ---------------------------------------------------------

  /** What one try at settling the head changes. */
  ghost function StepChanges(b: BattleState, depth: nat, fx: Passives): seq<Change>
    requires ValidField(b.units)
  {
    match Acting(b)
    case None => []
    case Some(i) =>
      var b1 := Tick(b, i);
      if !Alive(b1.units[i]) then
        var es := fx(OnDeath(depth), b1);
        FireChanges(b1, es) + RollChanges(Fire(b1, es).units)
      else
        var es := fx(TurnStart(depth), b1);
        var b2 := Fire(b1, es);
        FireChanges(b1, es) + if Immobilized(b2.units[i]) then SkipChanges(b2, i) + RollChanges(Skip(b2, i).units) else []
  }

  ghost function StartChanges(b: BattleState, depth: nat, fx: Passives): seq<Change>
    requires ValidField(b.units)
    decreases |b.units| + 1 - depth
  {
    if depth > |b.units| then []
    else
      var t := StartStep(b, depth, fx);
      StepChanges(b, depth, fx) + if t.Again? then StartChanges(t.b, depth + 1, fx) else []
  }

  lemma OpenMoves(b: BattleState, i: nat, es: seq<Effect>)
    requires Tidy(b) && i < |b.units|
    ensures Moves(b, Fire(Tick(b, i), es), FireChanges(Tick(b, i), es)) && Tidy(Fire(Tick(b, i), es))
  {
    TickStill(b, i);
    FireMoves(Tick(b, i), es);
    hide Moves, Tick, Fire;
    MovesOn(b, Tick(b, i), Fire(Tick(b, i), es), [], FireChanges(Tick(b, i), es));
    assert [] + FireChanges(Tick(b, i), es) == FireChanges(Tick(b, i), es);
  }

  lemma ReseatMoves(b: BattleState, b1: BattleState, cs: seq<Change>, round: nat)
    requires Tidy(b) && Moves(b, b1, cs) && Tidy(b1)
    ensures Moves(b, Roll(b1).(round := round), cs + RollChanges(b1.units)) && Tidy(Roll(b1).(round := round))
  {
    hide Moves;
    RollMoves(b1, round);
    MovesOn(b, b1, Roll(b1).(round := round), cs, RollChanges(b1.units));
  }

  lemma Regroup(a: seq<Change>, b: seq<Change>, c: seq<Change>)
    ensures a + b + c == a + (b + c)
  {
  }

  lemma SkipOn(b: BattleState, b1: BattleState, cs: seq<Change>, i: nat)
    requires Tidy(b) && Moves(b, b1, cs) && Tidy(b1) && i < |b1.units|
    ensures ValidField(Skip(b1, i).units)
    ensures var b' := Roll(Skip(b1, i)); var b'' := b'.(round := b'.round + 1);
            Moves(b, b'', cs + (SkipChanges(b1, i) + RollChanges(Skip(b1, i).units))) && Tidy(b'')
  {
    hide *;
    SkipMoves(b1, i);
    var b2 := Skip(b1, i);
    IsValid(b2);
    MovesOn(b, b1, b2, cs, SkipChanges(b1, i));
    ReseatMoves(b, b2, cs + SkipChanges(b1, i), Roll(b2).round + 1);
    Regroup(cs, SkipChanges(b1, i), RollChanges(b2.units));
  }

  lemma IsValid(b: BattleState)
    requires Tidy(b)
    ensures ValidField(b.units)
  {
  }

  lemma StepMoves(b: BattleState, depth: nat, fx: Passives)
    requires Tidy(b)
    ensures Moves(b, StartStep(b, depth, fx).b, StepChanges(b, depth, fx)) && Tidy(StartStep(b, depth, fx).b)
  {
    hide Moves, Tick, Fire, Roll, Skip, Immobilized, FireChanges, RollChanges, SkipChanges;
    var i := Acting(b);
    if i.None? {
      Still(b, b);
    } else {
      var b1 := Tick(b, i.value);
      if !Alive(b1.units[i.value]) {
        var es := fx(OnDeath(depth), b1);
        OpenMoves(b, i.value, es);
        ReseatMoves(b, Fire(b1, es), FireChanges(b1, es), Roll(Fire(b1, es)).round);
      } else {
        var es := fx(TurnStart(depth), b1);
        OpenMoves(b, i.value, es);
        if Immobilized(Fire(b1, es).units[i.value]) {
          SkipOn(b, Fire(b1, es), FireChanges(b1, es), i.value);
        } else {
          assert FireChanges(b1, es) + [] == FireChanges(b1, es);
        }
      }
    }
  }

  lemma {:induction false} StartMoves(b: BattleState, depth: nat, fx: Passives)
    requires Tidy(b)
    ensures Moves(b, StartOfTurn(b, depth, fx), StartChanges(b, depth, fx)) && Tidy(StartOfTurn(b, depth, fx))
    decreases |b.units| + 1 - depth
  {
    hide Moves, StartStep, StepChanges;
    if depth > |b.units| {
      Still(b, b);
    } else {
      StepMoves(b, depth, fx);
      var t := StartStep(b, depth, fx);
      if t.Again? {
        StartMoves(t.b, depth + 1, fx);
        MovesOn(b, t.b, StartOfTurn(t.b, depth + 1, fx), StepChanges(b, depth, fx), StartChanges(t.b, depth + 1, fx));
      } else {
        assert StepChanges(b, depth, fx) + [] == StepChanges(b, depth, fx);
      }
    }
  }

  // -- a whole turn -------------------------------------------------------------------------

  /** What happens to statuses once the action is over: blocks age, the roll runs, the next turn
      starts. */
  ghost function ClockChanges(b: BattleState, fx: Passives): seq<Change>
    requires ValidField(b.units)
  {
    var us := Acted(b, fx).units;
    AgeRemovals(us, |us|) + RollChanges(AgeUnits(us)) + StartChanges(Rotate(b, fx), 0, fx)
  }

  /** Everything that is queued while a turn ends, in order. */
  ghost function TurnChanges(b: BattleState, fx: Passives): seq<Change>
    requires ValidField(b.units)
  {
    ActionChanges(b, fx) + ClockChanges(b, fx)
  }

  lemma RotateMoves(b: BattleState, fx: Passives)
    requires Tidy(b)
    ensures Tidy(Acted(b, fx)) && Tidy(Rotate(b, fx))
    ensures var us := Acted(b, fx).units; Moves(Acted(b, fx), Rotate(b, fx), AgeRemovals(us, |us|) + RollChanges(AgeUnits(us)))
  {
    ActedMoves(b, fx);
    hide Moves, Acted;
    var b1 := Acted(b, fx);
    AgeBlocksMoves(b1);
    RotateIs(b, fx);
    var r := Roll(AgeBlocks(b1)).round + 1;
    ReseatMoves(b1, AgeBlocks(b1), AgeRemovals(b1.units, |b1.units|), r);
    OpenFlag(b1, Roll(AgeBlocks(b1)).(round := r), AgeRemovals(b1.units, |b1.units|) + RollChanges(AgeUnits(b1.units)));
  }

  lemma RotateIs(b: BattleState, fx: Passives)
    requires Tidy(b) && Tidy(Acted(b, fx))
    ensures ValidField(AgeBlocks(Acted(b, fx)).units)
    ensures var r := Roll(AgeBlocks(Acted(b, fx))); Rotate(b, fx) == r.(round := r.round + 1, turnOpen := false)
  {
    AgedValid(Acted(b, fx));
  }

  lemma OpenFlag(b: BattleState, b': BattleState, cs: seq<Change>)
    requires Moves(b, b', cs)
    ensures Moves(b, b'.(turnOpen := false), cs)
  {
  }

  /** EVERYTHING QUEUED, AND NOTHING ELSE: the queue after a turn is the collapse of the turn's
      changes into the queue before it, and what was told does not move. */
  lemma EndTurnQueues(b: BattleState, fx: Passives)
    requires Tidy(b)
    ensures EndTurn(b, fx).rows == QueueAll(b.rows, b.told, b.wave, TurnChanges(b, fx))
    ensures EndTurn(b, fx).told == b.told && EndTurn(b, fx).wave == b.wave
  {
    ActedMoves(b, fx);
    ClockMovesOn(b, fx);
    hide FieldMoves, Acted, EndTurn, ClockChanges, ActionChanges;
    QueueAllAdds(b.rows, b.told, b.wave, ActionChanges(b, fx), ClockChanges(b, fx));
  }

  lemma ClockMovesOn(b: BattleState, fx: Passives)
    requires Tidy(b)
    ensures Moves(Acted(b, fx), EndTurn(b, fx), ClockChanges(b, fx)) && Tidy(EndTurn(b, fx)) && Tidy(Acted(b, fx))
  {
    hide Moves, Rotate, StartOfTurn, Acted;
    RotateMoves(b, fx);
    StartMoves(Rotate(b, fx), 0, fx);
    var us := Acted(b, fx).units;
    MovesOn(Acted(b, fx), Rotate(b, fx), EndTurn(b, fx), AgeRemovals(us, |us|) + RollChanges(AgeUnits(us)), StartChanges(Rotate(b, fx), 0, fx));
  }

  /** WHAT IS QUEUED IS WHAT HAPPENED: with the actor's own expiries put back in their place, the
      changes of a turn take the statuses of the field, pair by pair, from what they were to what
      they are, and remove only what is held at that moment. */
  lemma TurnTells(b: BattleState, fx: Passives, k: Key)
    requires Tidy(b)
    ensures var all := ActionChanges(b, fx) + OwnLapses(b, fx) + ClockChanges(b, fx);
            && Bears(EndTurn(b, fx).units, k) == Moved(Bears(b.units, k), all, k)
            && Borne(Bears(b.units, k), all, k)
  {
    ActedMoves(b, fx);
    ClockMovesOn(b, fx);
    hide Acted, EndTurn, ClockChanges, ActionChanges, OwnLapses;
    FieldMovesOn(b.units, Acted(b, fx).units, EndTurn(b, fx).units, ActionChanges(b, fx) + OwnLapses(b, fx), ClockChanges(b, fx));
  }
}
