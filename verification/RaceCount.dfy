/** How many passes a race takes: exact counts, the budget that suffices, and fairness. */
module RaceCount {
  import opened Wrappers
  import opened GaugeRace
  import opened RaceRun

  // -- sums -------------------------------------------------------------------------

  function Sum(s: seq<nat>): nat {
    if s == [] then 0 else Sum(s[..|s| - 1]) + s[|s| - 1]
  }

  lemma {:induction false} SumBump(s: seq<nat>, i: nat)
    requires i < |s|
    ensures Sum(s[i := s[i] + 1]) == Sum(s) + 1
  {
    var t := s[i := s[i] + 1];
    if i == |s| - 1 {
      assert t[..|t| - 1] == s[..|s| - 1];
    } else {
      SumBump(s[..|s| - 1], i);
      assert t[..|t| - 1] == s[..|s| - 1][i := s[i] + 1];
    }
  }

  lemma {:induction false} SumMonotone(s: seq<nat>, t: seq<nat>)
    requires |s| == |t| && forall i :: 0 <= i < |s| ==> s[i] <= t[i]
    ensures Sum(s) <= Sum(t)
    ensures forall i :: 0 <= i < |s| && s[i] < t[i] ==> Sum(s) < Sum(t)
  {
    if s != [] {
      var s', t' := s[..|s| - 1], t[..|t| - 1];
      SumMonotone(s', t');
      forall i | 0 <= i < |s| && s[i] < t[i] ensures Sum(s) < Sum(t) {
        if i < |s'| { assert s'[i] < t'[i]; }
      }
    }
  }

  lemma {:induction false} SumZeros(n: nat)
    ensures Sum(Zeros(n)) == 0
  {
    if n > 0 {
      SumZeros(n - 1);
      assert Zeros(n)[..n - 1] == Zeros(n - 1);
    }
  }

  // -- counting passes --------------------------------------------------------------

  ghost predicate Stalled(r: seq<Racer>, g: seq<real>, p: nat)
    requires ValidRacers(r) && ValidGauges(r, g)
  {
    Next(r, After(r, g, p).g).None?
  }

  lemma CountStep(r: seq<Racer>, g: seq<real>, p: nat)
    requires ValidRacers(r) && ValidGauges(r, g)
    requires Sum(After(r, g, p).acts) == |After(r, g, p).picks|
    ensures Sum(After(r, g, p + 1).acts) == |After(r, g, p + 1).picks|
    ensures |After(r, g, p + 1).picks| == |After(r, g, p).picks| + if Stalled(r, g, p) then 0 else 1
  {
    var s := After(r, g, p);
    PassCounts(r, s);
    hide Pass, Next;
    assert After(r, g, p + 1) == Pass(r, s);
  }

  lemma PassCounts(r: seq<Racer>, s: Run)
    requires ValidRacers(r) && ValidRun(r, s)
    ensures Sum(Pass(r, s).acts) == Sum(s.acts) + |Pass(r, s).picks| - |s.picks|
    ensures |Pass(r, s).picks| == |s.picks| + if Next(r, s.g).None? then 0 else 1
  {
    hide Next, Settle, Wait;
    var n := Next(r, s.g);
    if n.Some? {
      SumBump(s.acts, n.value);
    }
  }

  /** Every pass is one racer's turn. */
  lemma {:induction false} TurnsAddUp(r: seq<Racer>, g: seq<real>, p: nat)
    requires ValidRacers(r) && ValidGauges(r, g)
    ensures Sum(After(r, g, p).acts) == |After(r, g, p).picks| <= p
  {
    hide Pass;
    if p == 0 {
      SumZeros(|r|);
    } else {
      TurnsAddUp(r, g, p - 1);
      CountStep(r, g, p - 1);
    }
  }

  lemma GrowWhileWaiting(r: seq<Racer>, g: seq<real>, p: nat, w: nat)
    requires ValidRacers(r) && ValidGauges(r, g) && w < |r| && CanAct(r, g, w)
    requires After(r, g, p).acts[w] == 0
    ensures |After(r, g, p + 1).picks| == |After(r, g, p).picks| + 1
  {
    NeverStalls(r, g, p, w);
    TurnsAddUp(r, g, p);
    CountStep(r, g, p);
  }

  /** While a racer that can act is waiting, the race does not stall. */
  lemma {:induction false} NoStallWhileWaiting(r: seq<Racer>, g: seq<real>, p: nat, w: nat)
    requires ValidRacers(r) && ValidGauges(r, g) && w < |r| && CanAct(r, g, w)
    requires After(r, g, p).acts[w] == 0
    ensures |After(r, g, p).picks| == p
  {
    hide Pass, Next, Settle, CanAct;
    if p > 0 {
      WaitingEarlier(r, g, p - 1, w);
      NoStallWhileWaiting(r, g, p - 1, w);
      GrowWhileWaiting(r, g, p - 1, w);
    }
  }

  lemma NeverStalls(r: seq<Racer>, g: seq<real>, p: nat, w: nat)
    requires ValidRacers(r) && ValidGauges(r, g) && w < |r| && CanAct(r, g, w)
    requires After(r, g, p).acts[w] == 0
    ensures !Stalled(r, g, p)
  {
    var s := After(r, g, p);
    NextIsFull(r, s.g);
    Conserved(r, g, p, w);
    if !Mover(r, w) {
      assert r[w].live && s.g[w] >= FULL;
    }
  }

  /** How many gauges `v` collects no later than `w` first acts. */
  function UpTo(r: seq<Racer>, g: seq<real>, v: nat, w: nat): nat
    requires ValidRacers(r) && |g| == |r| && v < |r| && w < |r|
  {
    if Mover(r, v) then Collected(g[v], Due(r, g, w), r[v].spd, Leads(r, v, w))
    else if CanAct(r, g, v) && (Due(r, g, w) > 0.0 || Leads(r, v, w)) then 1
    else 0
  }

  /** Full gauges collected by time `t` (`inclusive`: counting one completed exactly at `t`). */
  function Collected(start: real, t: real, spd: real, inclusive: bool): nat {
    var x := (start + t * spd) / FULL;
    var c := if inclusive then x.Floor else -((-x).Floor) - 1;
    if c < 0 then 0 else c
  }

  function UpTos(r: seq<Racer>, g: seq<real>, w: nat): (c: seq<nat>)
    requires ValidRacers(r) && |g| == |r| && w < |r|
    ensures |c| == |r|
  {
    seq(|r|, v requires 0 <= v < |r| => UpTo(r, g, v, w))
  }

  /** The turn number at which `w` first acts. */
  function Turn(r: seq<Racer>, g: seq<real>, w: nat): nat
    requires ValidRacers(r) && |g| == |r| && w < |r|
  {
    Sum(UpTos(r, g, w))
  }

  lemma CollectedAtLeast(acts: nat, start: real, clock: real, t: real, spd: real, inclusive: bool)
    requires Even(acts, 0.0, start, clock, spd) && spd >= 1.0
    requires if inclusive then clock <= t else clock < t
    ensures acts <= Collected(start, t, spd, inclusive)
  {
    var x := (start + t * spd) / FULL;
    assert (t - clock) * spd == t * spd - clock * spd;
    assert acts as real <= x;
    assert !inclusive ==> acts as real < x;
  }

  lemma CollectedAtMost(acts: nat, held: real, start: real, t: real, spd: real, inclusive: bool)
    requires Even(acts, held, start, t, spd) && 0.0 <= held <= FULL
    requires inclusive ==> held < FULL
    ensures Collected(start, t, spd, inclusive) <= acts
  {
    var x := (start + t * spd) / FULL;
    assert x == acts as real + held / FULL;
  }

  /** A pass, seen by its racer and by one that goes on waiting. */
  lemma PassFacts(r: seq<Racer>, g: seq<real>, p: nat, v: nat, w: nat)
    requires ValidRacers(r) && ValidGauges(r, g) && v < |r| && w < |r|
    requires CanAct(r, g, w) && After(r, g, p).acts[w] == 0
    requires Next(r, After(r, g, p).g) == Some(v)
    ensures After(r, g, p + 1).acts[v] == After(r, g, p).acts[v] + 1 && After(r, g, p + 1).g[v] == 0.0
    ensures After(r, g, p + 1).clock == Settled(r, After(r, g, p)).clock <= Due(r, g, w)
    ensures After(r, g, p + 1).clock == Due(r, g, w) ==> Leads(r, v, w)
    ensures v == w ==> After(r, g, p + 1).clock == Due(r, g, w)
  {
    var s := After(r, g, p);
    assert After(r, g, p + 1) == Pass(r, s);
    NotOverdue(r, g, p, w);
    NextIsFull(r, s.g);
  }

  lemma OthersUnmoved(r: seq<Racer>, g: seq<real>, p: nat, v: nat)
    requires ValidRacers(r) && ValidGauges(r, g) && v < |r|
    requires Next(r, After(r, g, p).g) != Some(v)
    ensures After(r, g, p + 1).acts[v] == After(r, g, p).acts[v]
    ensures Next(r, After(r, g, p).g).Some? ==> After(r, g, p + 1).g[v] == Settle(r, After(r, g, p).g)[v]
  {
    assert After(r, g, p + 1) == Pass(r, After(r, g, p));
  }

  lemma MoverWithinShare(r: seq<Racer>, g: seq<real>, p: nat, v: nat, w: nat)
    requires ValidRacers(r) && ValidGauges(r, g) && v < |r| && w < |r| && CanAct(r, g, w) && Mover(r, v)
    requires After(r, g, p).acts[w] == 0 && Next(r, After(r, g, p).g) == Some(v)
    ensures After(r, g, p + 1).acts[v] <= UpTo(r, g, v, w)
  {
    hide Pass, Settle, Wait, Next, Due, Collected, Even, Settled;
    PassFacts(r, g, p, v, w);
    Conserved(r, g, p + 1, v);
    var s := After(r, g, p + 1);
    CollectedAtLeast(s.acts[v], g[v], s.clock, Due(r, g, w), r[v].spd, Leads(r, v, w));
  }

  /** The racer of a pass has not yet collected more than its share before a waiting `w`. */
  lemma PickWithinShare(r: seq<Racer>, g: seq<real>, p: nat, v: nat, w: nat)
    requires ValidRacers(r) && ValidGauges(r, g) && v < |r| && w < |r| && CanAct(r, g, w)
    requires After(r, g, p).acts[w] == 0 && Next(r, After(r, g, p).g) == Some(v)
    ensures After(r, g, p + 1).acts[v] <= UpTo(r, g, v, w)
  {
    hide Pass, Settle, Wait, Next, Due, Settled;
    if Mover(r, v) {
      MoverWithinShare(r, g, p, v, w);
    } else {
      PassFacts(r, g, p, v, w);
      Conserved(r, g, p + 1, v);
      BlockedWaits(r, g, p, v);
    }
  }

  /** While `w` waits, nobody has collected more than its share before `w`. */
  lemma {:induction false} WithinShare(r: seq<Racer>, g: seq<real>, p: nat, v: nat, w: nat)
    requires ValidRacers(r) && ValidGauges(r, g) && v < |r| && w < |r| && CanAct(r, g, w)
    requires After(r, g, p).acts[w] == 0
    ensures After(r, g, p).acts[v] <= UpTo(r, g, v, w)
  {
    hide UpTo, Pass, Next, Settle, CanAct;
    if p > 0 {
      WaitingEarlier(r, g, p - 1, w);
      WithinShare(r, g, p - 1, v, w);
      if Next(r, After(r, g, p - 1).g) == Some(v) {
        PickWithinShare(r, g, p - 1, v, w);
      } else {
        OthersUnmoved(r, g, p - 1, v);
      }
    }
  }

  lemma LeadersWait(r: seq<Racer>, g: seq<real>, p: nat, v: nat, w: nat)
    requires ValidRacers(r) && ValidGauges(r, g) && v < |r| && w < |r| && v != w
    requires Next(r, After(r, g, p).g) == Some(w)
    ensures 0.0 <= Settle(r, After(r, g, p).g)[v] <= FULL
    ensures Leads(r, v, w) && r[v].live ==> Settle(r, After(r, g, p).g)[v] < FULL
  {
    SettleValid(r, After(r, g, p).g);
    NextIsFull(r, After(r, g, p).g);
    LeadsOneWay(r, v, w);
  }

  /** When `w` first acts, a moving racer has collected its full share. */
  lemma FullShareMover(r: seq<Racer>, g: seq<real>, p: nat, v: nat, w: nat)
    requires ValidRacers(r) && ValidGauges(r, g) && v < |r| && w < |r| && CanAct(r, g, w) && Mover(r, v)
    requires After(r, g, p).acts[w] == 0 && Next(r, After(r, g, p).g) == Some(w)
    ensures UpTo(r, g, v, w) <= After(r, g, p + 1).acts[v]
  {
    PassFacts(r, g, p, w, w);
    Conserved(r, g, p + 1, v);
    var s := After(r, g, p + 1);
    if v != w {
      OthersUnmoved(r, g, p, v);
      LeadersWait(r, g, p, v, w);
    }
    hide Pass, Settle, Wait, Next, Due, Collected, Even, Settled;
    CollectedAtMost(s.acts[v], s.g[v], g[v], Due(r, g, w), r[v].spd, Leads(r, v, w));
  }

  /** When `w` first acts, a racer that opened full and cannot move has acted if it ranks first. */
  lemma FullShareBlocked(r: seq<Racer>, g: seq<real>, p: nat, v: nat, w: nat)
    requires ValidRacers(r) && ValidGauges(r, g) && v < |r| && w < |r| && CanAct(r, g, w) && !Mover(r, v)
    requires After(r, g, p).acts[w] == 0 && Next(r, After(r, g, p).g) == Some(w)
    ensures UpTo(r, g, v, w) <= After(r, g, p + 1).acts[v]
  {
    hide Pass, Settle, Wait, Next;
    PassFacts(r, g, p, w, w);
    if v != w {
      OthersUnmoved(r, g, p, v);
      if CanAct(r, g, v) && After(r, g, p).acts[v] == 0 {
        NotOverdue(r, g, p, v);
        BlockedWaits(r, g, p, v);
        LeadersWait(r, g, p, v, w);
      }
    }
  }

  lemma ShareExact(r: seq<Racer>, g: seq<real>, p: nat, v: nat, w: nat)
    requires ValidRacers(r) && ValidGauges(r, g) && v < |r| && w < |r| && CanAct(r, g, w)
    requires After(r, g, p).acts[w] == 0 && Next(r, After(r, g, p).g) == Some(w)
    ensures After(r, g, p + 1).acts[v] == UpTo(r, g, v, w)
  {
    hide Pass, UpTo, Next, Settle, CanAct;
    if Mover(r, v) {
      FullShareMover(r, g, p, v, w);
    } else {
      FullShareBlocked(r, g, p, v, w);
    }
    if v == w {
      PickWithinShare(r, g, p, v, w);
    } else {
      WithinShare(r, g, p, v, w);
      OthersUnmoved(r, g, p, v);
    }
  }

  /** THE EXACT TURN: at the pass where `w` first acts, everybody's count is its share. */
  lemma FirstActShares(r: seq<Racer>, g: seq<real>, p: nat, w: nat)
    requires ValidRacers(r) && ValidGauges(r, g) && w < |r| && CanAct(r, g, w)
    requires After(r, g, p).acts[w] == 0 && Next(r, After(r, g, p).g) == Some(w)
    ensures After(r, g, p + 1).acts == UpTos(r, g, w)
    ensures Turn(r, g, w) == p + 1
  {
    hide Pass, UpTo, Next, Settle;
    forall v | 0 <= v < |r| ensures After(r, g, p + 1).acts[v] == UpTo(r, g, v, w) {
      ShareExact(r, g, p, v, w);
    }
    assert After(r, g, p + 1).acts == UpTos(r, g, w);
    NoStallWhileWaiting(r, g, p, w);
    GrowWhileWaiting(r, g, p, w);
    TurnsAddUp(r, g, p + 1);
  }

  lemma {:induction false} FirstActExists(r: seq<Racer>, g: seq<real>, p: nat, w: nat) returns (q: nat)
    requires ValidRacers(r) && ValidGauges(r, g) && w < |r| && After(r, g, p).acts[w] > 0
    ensures q < p && After(r, g, q).acts[w] == 0 && Next(r, After(r, g, q).g) == Some(w)
  {
    hide Pass, Next, Settle;
    if After(r, g, p - 1).acts[w] > 0 {
      q := FirstActExists(r, g, p - 1, w);
    } else {
      q := p - 1;
      if Next(r, After(r, g, q).g) != Some(w) {
        OthersUnmoved(r, g, q, w);
      }
    }
  }

  lemma WaitingMeansLater(r: seq<Racer>, g: seq<real>, p: nat, w: nat)
    requires ValidRacers(r) && ValidGauges(r, g) && w < |r| && CanAct(r, g, w)
    requires After(r, g, p).acts[w] == 0
    ensures p < Turn(r, g, w)
  {
    forall v | 0 <= v < |r| ensures After(r, g, p).acts[v] <= UpTos(r, g, w)[v] {
      WithinShare(r, g, p, v, w);
    }
    OwnShare(r, g, w);
    SumMonotone(After(r, g, p).acts, UpTos(r, g, w));
    NoStallWhileWaiting(r, g, p, w);
    TurnsAddUp(r, g, p);
    assert After(r, g, p).acts[w] < UpTos(r, g, w)[w];
  }

  /** A racer's own share, up to its own first act, is that act. */
  lemma OwnShare(r: seq<Racer>, g: seq<real>, w: nat)
    requires ValidRacers(r) && ValidGauges(r, g) && w < |r| && CanAct(r, g, w)
    ensures UpTo(r, g, w, w) == 1
  {
    if Mover(r, w) {
      DueMover(r, g, w);
      DivLe(Due(r, g, w), FULL - g[w], r[w].spd);
    }
  }

  /** A racer is in the queue after `p` passes exactly when its turn number is at most `p`. */
  lemma QueuedIff(r: seq<Racer>, g: seq<real>, p: nat, w: nat)
    requires ValidRacers(r) && ValidGauges(r, g) && w < |r| && CanAct(r, g, w)
    ensures w in FirstActs(After(r, g, p).picks) <==> Turn(r, g, w) <= p
  {
    ActedIffPicked(r, g, p, w);
    if After(r, g, p).acts[w] > 0 {
      var q := FirstActExists(r, g, p, w);
      FirstActShares(r, g, q, w);
    } else {
      WaitingMeansLater(r, g, p, w);
    }
  }
}
