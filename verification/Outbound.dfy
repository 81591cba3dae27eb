/** The queue of out-of-band losses, and how it is drained onto replies. */
module Outbound {
  import opened Wrappers
  import opened Units
  import opened TurnQueue

  /** What became of a queue: rows sent, rows still queued, rows discarded. */
  datatype Drained = Drained(sent: seq<DeathRow>, kept: seq<DeathRow>, dropped: seq<DeathRow>)

  /** A row the client may be shown: of this wave, of a unit still on the field, and fatal
      unless ticks are told too. */
  predicate Deliverable(b: BattleState, d: DeathRow) {
    (b.tellNonFatal || d.die) && d.wave == b.wave && Find(b.units, d.order).Some?
  }

  function Only(ds: seq<DeathRow>, die: bool): seq<DeathRow> {
    if ds == [] then []
    else (if ds[0].die == die then [ds[0]] else []) + Only(ds[1..], die)
  }

  /** Deaths first, each group in queue order. */
  function DeathsFirst(ds: seq<DeathRow>): seq<DeathRow> {
    Only(ds, true) + Only(ds, false)
  }

  /** Walk the queue until `limit` rows are sent; what is passed over is discarded. */
  function Walk(b: BattleState, ds: seq<DeathRow>, limit: Option<nat>): (w: Drained)
    decreases |ds|
  {
    if ds == [] || limit == Some(0) then Drained([], ds, [])
    else if !Deliverable(b, ds[0]) then
      var w := Walk(b, ds[1..], limit);
      w.(dropped := [ds[0]] + w.dropped)
    else
      var w := Walk(b, ds[1..], if limit.Some? then Some(limit.value - 1) else None);
      w.(sent := [ds[0]] + w.sent)
  }

  function Drain(b: BattleState, limit: Option<nat>): Drained {
    Walk(b, if limit.Some? then DeathsFirst(b.deaths) else b.deaths, limit)
  }

  function Drain1(b: BattleState): Drained { Drain(b, Some(1)) }

  // -- conservation -----------------------------------------------------------------

  function Rest(limit: Option<nat>): Option<nat> {
    if limit.Some? && limit.value > 0 then Some(limit.value - 1) else limit
  }

  function Count(ds: seq<DeathRow>, d: DeathRow): nat { multiset(ds)[d] }

  lemma CountNil(d: DeathRow)
    ensures Count([], d) == 0
  {
  }

  lemma CountCons(h: DeathRow, ds: seq<DeathRow>, d: DeathRow)
    ensures Count([h] + ds, d) == (if h == d then 1 else 0) + Count(ds, d)
  {
  }

  lemma {:induction false} WalkCounts(b: BattleState, ds: seq<DeathRow>, limit: Option<nat>, d: DeathRow)
    ensures var w := Walk(b, ds, limit);
            Count(ds, d) == Count(w.sent, d) + Count(w.dropped, d) + Count(w.kept, d)
    decreases |ds|
  {
    CountNil(d);
    hide Count, Deliverable;
    if ds != [] && limit != Some(0) {
      assert ds == [ds[0]] + ds[1..];
      CountCons(ds[0], ds[1..], d);
      var rest := if Deliverable(b, ds[0]) then Rest(limit) else limit;
      var w := Walk(b, ds[1..], rest);
      WalkCounts(b, ds[1..], rest, d);
      CountCons(ds[0], w.sent, d);
      CountCons(ds[0], w.dropped, d);
    }
  }

  lemma WalkKeepsAll(b: BattleState, ds: seq<DeathRow>, limit: Option<nat>)
    ensures var w := Walk(b, ds, limit);
            multiset(ds) == multiset(w.sent) + multiset(w.dropped) + multiset(w.kept)
  {
    var w := Walk(b, ds, limit);
    forall d ensures multiset(ds)[d] == (multiset(w.sent) + multiset(w.dropped) + multiset(w.kept))[d] {
      WalkCounts(b, ds, limit, d);
    }
  }

  lemma {:induction false} WalkSorts(b: BattleState, ds: seq<DeathRow>, limit: Option<nat>)
    ensures forall d :: d in Walk(b, ds, limit).sent ==> Deliverable(b, d)
    ensures forall d :: d in Walk(b, ds, limit).dropped ==> !Deliverable(b, d)
    decreases |ds|
  {
    if ds != [] && limit != Some(0) {
      WalkSorts(b, ds[1..], if Deliverable(b, ds[0]) then Rest(limit) else limit);
    }
  }

  lemma {:induction false} WalkLimits(b: BattleState, ds: seq<DeathRow>, limit: Option<nat>)
    ensures var w := Walk(b, ds, limit);
            && (limit.Some? ==> |w.sent| <= limit.value)
            && (limit.None? || |w.sent| < limit.value ==> w.kept == [])
    decreases |ds|
  {
    if ds != [] && limit != Some(0) {
      WalkLimits(b, ds[1..], if Deliverable(b, ds[0]) then Rest(limit) else limit);
    }
  }

  lemma {:induction false} OnlyKeepsAll(ds: seq<DeathRow>)
    ensures multiset(Only(ds, true)) + multiset(Only(ds, false)) == multiset(ds)
  {
    if ds != [] {
      OnlyKeepsAll(ds[1..]);
      assert ds == [ds[0]] + ds[1..];
    }
  }

  lemma {:induction false} OnlyIs(ds: seq<DeathRow>, die: bool)
    ensures forall k :: 0 <= k < |Only(ds, die)| ==> Only(ds, die)[k].die == die
  {
    if ds != [] {
      OnlyIs(ds[1..], die);
    }
  }

  lemma DeathsFirstKeepsAll(ds: seq<DeathRow>)
    ensures multiset(DeathsFirst(ds)) == multiset(ds)
    ensures forall d :: d in ds ==> d in DeathsFirst(ds)
  {
    OnlyKeepsAll(ds);
    forall d | d in ds ensures d in DeathsFirst(ds) {
      assert d in multiset(DeathsFirst(ds));
    }
  }

  /** A DRAIN CONSERVES ROWS: what was queued is sent, kept, or discarded, and only rows that
      could not be delivered are discarded. */
  lemma DrainConserves(b: BattleState, limit: Option<nat>)
    ensures var w := Drain(b, limit);
            && multiset(b.deaths) == multiset(w.sent) + multiset(w.dropped) + multiset(w.kept)
            && (forall d :: d in w.sent ==> Deliverable(b, d))
            && (forall d :: d in w.dropped ==> !Deliverable(b, d))
            && (limit.None? || |w.sent| < limit.value ==> w.kept == [])
  {
    var ds := if limit.Some? then DeathsFirst(b.deaths) else b.deaths;
    DeathsFirstKeepsAll(b.deaths);
    WalkKeepsAll(b, ds, limit);
    WalkSorts(b, ds, limit);
    WalkLimits(b, ds, limit);
  }

  ghost predicate DeathWaits(b: BattleState) {
    exists d :: d in b.deaths && d.die && Deliverable(b, d)
  }

  /** What a one-row walk sends: the first deliverable row there is. */
  lemma {:induction false} WalkOne(b: BattleState, ds: seq<DeathRow>)
    ensures var w := Walk(b, ds, Some(1));
            && |w.sent| <= 1
            && (w.sent == [] ==> w.kept == [] && forall k :: 0 <= k < |ds| ==> !Deliverable(b, ds[k]))
            && (w.sent != [] ==> exists i :: 0 <= i < |ds| && w.sent == [ds[i]] && w.kept == ds[i + 1..] && Deliverable(b, ds[i])
                                             && forall k :: 0 <= k < i ==> !Deliverable(b, ds[k]))
  {
    hide Deliverable;
    if ds != [] && !Deliverable(b, ds[0]) {
      WalkOne(b, ds[1..]);
      var w := Walk(b, ds[1..], Some(1));
      if w.sent != [] {
        var i :| 0 <= i < |ds[1..]| && w.sent == [ds[1..][i]] && w.kept == ds[1..][i + 1..] && Deliverable(b, ds[1..][i])
                 && forall k :: 0 <= k < i ==> !Deliverable(b, ds[1..][k]);
        assert ds[i + 1] == ds[1..][i] && ds[i + 2..] == ds[1..][i + 1..];
        forall k | 0 <= k < i + 1 ensures !Deliverable(b, ds[k]) {
          if k > 0 { assert ds[k] == ds[1..][k - 1]; }
        }
      } else {
        forall k | 0 <= k < |ds| ensures !Deliverable(b, ds[k]) {
          if k > 0 { assert ds[k] == ds[1..][k - 1]; }
        }
      }
    }
  }

  /** DEATHS GO FIRST: a one-row drain sends a tick only when no death can be delivered, and
      sends nothing only when nothing can be; then the queue is left empty. */
  lemma DeathsGoFirst(b: BattleState)
    ensures var w := Drain1(b);
            && (DeathWaits(b) ==> |w.sent| == 1 && w.sent[0].die)
            && (w.sent == [] ==> w.kept == [] && forall d :: d in b.deaths ==> !Deliverable(b, d))
  {
    var ds := DeathsFirst(b.deaths);
    DeathsFirstKeepsAll(b.deaths);
    WalkOne(b, ds);
    OnlyIs(b.deaths, true);
    OnlyIs(b.deaths, false);
    if DeathWaits(b) {
      var d :| d in b.deaths && d.die && Deliverable(b, d);
      FatalInFront(b.deaths, d);
    }
  }

  /** A death stands in the front part of the sorted queue. */
  lemma FatalInFront(ds: seq<DeathRow>, d: DeathRow)
    requires d in ds && d.die
    ensures d in Only(ds, true)
  {
    OnlyKeepsAll(ds);
    OnlyIs(ds, false);
    assert d !in Only(ds, false);
    assert d in multiset(ds);
  }
}
