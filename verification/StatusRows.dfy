/** Status changes that happen outside an attack: how they are queued and collapsed. */
module StatusRows {
  import opened Wrappers

  type Key = (nat, int)

  /** A change to one status of one unit: applied (with its duration) or removed. */
  datatype Change = Change(target: nat, id: int, applied: bool, duration: Option<int>)

  /** A queued change, stamped with the wave it happened in. */
  datatype Row = Row(change: Change, wave: nat)

  function KeyOf(c: Change): Key { (c.target, c.id) }

  /** The queued rows of every other (unit, status) pair, in order. */
  function Without(rows: seq<Row>, k: Key): seq<Row> {
    if rows == [] then []
    else (if KeyOf(rows[0].change) == k then [] else [rows[0]]) + Without(rows[1..], k)
  }

  /** The last queued row of a (unit, status) pair. */
  function LastOf(rows: seq<Row>, k: Key): Option<Row> {
    if rows == [] then None
    else
      var n := |rows| - 1;
      if KeyOf(rows[n].change) == k then Some(rows[n]) else LastOf(rows[..n], k)
  }

  /** Queue one change: it replaces whatever was queued for its pair, and a removal that
      undoes an application the client was never told about leaves nothing at all. */
  function QueueOne(rows: seq<Row>, told: set<Key>, wave: nat, c: Change): seq<Row> {
    var prior := LastOf(rows, KeyOf(c));
    var rest := Without(rows, KeyOf(c));
    if prior.Some? && prior.value.change.applied && !c.applied && KeyOf(c) !in told then rest
    else rest + [Row(c, wave)]
  }

  /** Queue a list of changes, oldest first. */
  function QueueAll(rows: seq<Row>, told: set<Key>, wave: nat, cs: seq<Change>): seq<Row>
    decreases |cs|
  {
    if cs == [] then rows
    else QueueOne(QueueAll(rows, told, wave, cs[..|cs| - 1]), told, wave, cs[|cs| - 1])
  }

  lemma {:induction false} QueueAllAdds(rows: seq<Row>, told: set<Key>, wave: nat, a: seq<Change>, b: seq<Change>)
    ensures QueueAll(rows, told, wave, a + b) == QueueAll(QueueAll(rows, told, wave, a), told, wave, b)
    decreases |b|
  {
    if b == [] {
      assert a + b == a;
    } else {
      QueueAllAdds(rows, told, wave, a, b[..|b| - 1]);
      assert (a + b)[..|a + b| - 1] == a + b[..|b| - 1];
    }
  }

  // -- what goes out, and what the client makes of it -------------------------------

  const ROUND_PERMANENT: int := -1

  /** The round number on the wire: 0 removes, -1 never runs out. */
  function Rounds(c: Change): int {
    if !c.applied then 0
    else match c.duration
         case None => ROUND_PERMANENT
         case Some(d) => if d >= 1 then d else 1
  }

  /** A drawn status: the pairs the client holds, with the rounds it was told. */
  type Held = map<Key, int>

  function Play1(h: Held, c: Change): Held {
    if Rounds(c) == 0 then h - {KeyOf(c)} else h[KeyOf(c) := Rounds(c)]
  }

  function Play(h: Held, cs: seq<Change>): Held
    decreases |cs|
  {
    if cs == [] then h else Play1(Play(h, cs[..|cs| - 1]), cs[|cs| - 1])
  }

  /** Every removal removes a status that is held at that point. */
  ghost predicate WellFormed(h: Held, cs: seq<Change>)
    decreases |cs|
  {
    cs == [] ||
    (WellFormed(h, cs[..|cs| - 1]) && (Rounds(cs[|cs| - 1]) == 0 ==> KeyOf(cs[|cs| - 1]) in Play(h, cs[..|cs| - 1])))
  }

  function Changes(rows: seq<Row>): (cs: seq<Change>)
    ensures |cs| == |rows| && forall k :: 0 <= k < |rows| ==> cs[k] == rows[k].change
  {
    seq(|rows|, k requires 0 <= k < |rows| => rows[k].change)
  }

  /** The server's record of what the client was told, after these rows went out. */
  function Tell(told: set<Key>, cs: seq<Change>): set<Key>
    decreases |cs|
  {
    if cs == [] then told
    else
      var t := Tell(told, cs[..|cs| - 1]);
      var c := cs[|cs| - 1];
      if Rounds(c) == 0 then t - {KeyOf(c)} else t + {KeyOf(c)}
  }

  /** The last change to a pair, if any. */
  function LastChange(cs: seq<Change>, k: Key): Option<Change>
    decreases |cs|
  {
    if cs == [] then None
    else if KeyOf(cs[|cs| - 1]) == k then Some(cs[|cs| - 1])
    else LastChange(cs[..|cs| - 1], k)
  }

  /** What the client shows for a pair. */
  function Look(h: Held, k: Key): Option<int> {
    if k in h then Some(h[k]) else None
  }

  function Shown(c: Change): Option<int> {
    if Rounds(c) == 0 then None else Some(Rounds(c))
  }

  /** Only the last change to a pair matters. */
  lemma {:induction false} LastWins(h: Held, cs: seq<Change>, k: Key)
    ensures Look(Play(h, cs), k) == match LastChange(cs, k) { case None => Look(h, k) case Some(c) => Shown(c) }
    decreases |cs|
  {
    if cs != [] {
      LastWins(h, cs[..|cs| - 1], k);
    }
  }

  lemma SameLooks(h: Held, h': Held)
    requires forall k :: Look(h, k) == Look(h', k)
    ensures h == h'
  {
    forall k ensures (k in h <==> k in h') && (k in h ==> h[k] == h'[k]) {
      assert Look(h, k) == Look(h', k);
    }
  }

  /** THE RECORD IS RIGHT: if the told-set is what the client holds, it still is after any rows. */
  lemma {:induction false} ToldIsHeld(told: set<Key>, h: Held, cs: seq<Change>)
    requires told == h.Keys
    ensures Tell(told, cs) == Play(h, cs).Keys
    decreases |cs|
  {
    if cs != [] {
      ToldIsHeld(told, h, cs[..|cs| - 1]);
    }
  }

  // -- collapsing -------------------------------------------------------------------

  ghost predicate OneRowEach(rows: seq<Row>) {
    forall i, j :: 0 <= i < j < |rows| ==> KeyOf(rows[i].change) != KeyOf(rows[j].change)
  }

  lemma {:induction false} WithoutIs(rows: seq<Row>, k: Key)
    ensures forall r :: r in Without(rows, k) <==> r in rows && KeyOf(r.change) != k
    ensures OneRowEach(rows) ==> OneRowEach(Without(rows, k))
  {
    if rows != [] {
      WithoutIs(rows[1..], k);
      assert rows == [rows[0]] + rows[1..];
      if OneRowEach(rows) {
        assert OneRowEach(rows[1..]) by {
          forall i, j | 0 <= i < j < |rows| - 1 ensures KeyOf(rows[1..][i].change) != KeyOf(rows[1..][j].change) {
            assert rows[1..][i] == rows[i + 1] && rows[1..][j] == rows[j + 1];
          }
        }
        WithoutCons(rows, k);
      }
    }
  }

  lemma WithoutCons(rows: seq<Row>, k: Key)
    requires rows != [] && OneRowEach(rows) && OneRowEach(Without(rows[1..], k))
    requires forall r :: r in Without(rows[1..], k) <==> r in rows[1..] && KeyOf(r.change) != k
    ensures OneRowEach(Without(rows, k))
  {
    var w := Without(rows, k);
    var w1 := Without(rows[1..], k);
    if KeyOf(rows[0].change) != k {
      assert w == [rows[0]] + w1;
      forall i, j | 0 <= i < j < |w| ensures KeyOf(w[i].change) != KeyOf(w[j].change) {
        assert w[j] == w1[j - 1];
        if i == 0 {
          assert w[j] in rows[1..];
          var m :| 0 <= m < |rows[1..]| && rows[1..][m] == w[j];
          assert rows[m + 1] == w[j];
        }
      }
    }
  }

  /** With one row for each pair, the last row of a pair is the row of that pair. */
  lemma {:induction false} LastOfIs(rows: seq<Row>, k: Key)
    ensures LastOf(rows, k).Some? ==> LastOf(rows, k).value in rows && KeyOf(LastOf(rows, k).value.change) == k
    ensures LastOf(rows, k).None? ==> forall r :: r in rows ==> KeyOf(r.change) != k
  {
    if rows != [] {
      LastOfIs(rows[..|rows| - 1], k);
      assert rows == rows[..|rows| - 1] + [rows[|rows| - 1]];
    }
  }

  lemma OneRowIs(rows: seq<Row>, r: Row)
    requires OneRowEach(rows) && r in rows
    ensures LastOf(rows, KeyOf(r.change)) == Some(r)
  {
    LastOfIs(rows, KeyOf(r.change));
    var l := LastOf(rows, KeyOf(r.change)).value;
    var i :| 0 <= i < |rows| && rows[i] == r;
    var j :| 0 <= j < |rows| && rows[j] == l;
  }

  /** What queueing one change does to each pair's row. */
  lemma QueueOneEffect(rows: seq<Row>, told: set<Key>, wave: nat, c: Change, k: Key)
    requires OneRowEach(rows)
    ensures var rows' := QueueOne(rows, told, wave, c); var prior := LastOf(rows, KeyOf(c));
            && OneRowEach(rows')
            && (k != KeyOf(c) ==> LastOf(rows', k) == LastOf(rows, k))
            && LastOf(rows', KeyOf(c)) ==
                 if prior.Some? && prior.value.change.applied && !c.applied && KeyOf(c) !in told then None else Some(Row(c, wave))
  {
    var kc := KeyOf(c);
    var rest := Without(rows, kc);
    WithoutIs(rows, kc);
    LastOfIs(rest, kc);
    LastOfIs(rest, k);
    LastOfIs(rows, k);
    if k != kc {
      if LastOf(rest, k).Some? {
        OneRowIs(rows, LastOf(rest, k).value);
      }
      if LastOf(rows, k).Some? {
        OneRowIs(rest, LastOf(rows, k).value);
      }
    }
    assert (rest + [Row(c, wave)])[..|rest|] == rest;
  }

  /** The last two changes to a pair are an application and its removal. */
  predicate Undone(cs: seq<Change>, k: Key)
    decreases |cs|
  {
    cs != [] &&
    (var n := |cs| - 1;
     if KeyOf(cs[n]) != k then Undone(cs[..n], k)
     else !cs[n].applied && LastChange(cs[..n], k).Some? && LastChange(cs[..n], k).value.applied)
  }

  /** THE QUEUE, EXACTLY: one row a pair at most, and that the last change to the pair; none where
      nothing changed, and none where the last change took back an application that the client
      was never told of. */
  lemma {:induction false} QueueHolds(told: set<Key>, wave: nat, cs: seq<Change>, k: Key)
    ensures OneRowEach(QueueAll([], told, wave, cs))
    ensures LastOf(QueueAll([], told, wave, cs), k) ==
              match LastChange(cs, k)
              case None => None
              case Some(c) => if k !in told && Undone(cs, k) then None else Some(Row(c, wave))
    decreases |cs|
  {
    hide QueueOne;
    if cs != [] {
      var n := |cs| - 1;
      QueueHolds(told, wave, cs[..n], k);
      UndoneEnds(cs[..n], k);
      QueueOneEffect(QueueAll([], told, wave, cs[..n]), told, wave, cs[n], k);
    }
  }

  lemma {:induction false} LastOfRows(rows: seq<Row>, k: Key)
    ensures LastChange(Changes(rows), k) == match LastOf(rows, k) { case None => None case Some(r) => Some(r.change) }
  {
    if rows != [] {
      LastOfRows(rows[..|rows| - 1], k);
      assert Changes(rows)[..|rows| - 1] == Changes(rows[..|rows| - 1]);
    }
  }

  /** With one row a pair, the removals that find their status are those of what is held. */
  lemma {:induction false} DistinctWellFormed(h: Held, rows: seq<Row>)
    requires OneRowEach(rows)
    ensures WellFormed(h, Changes(rows)) <==> forall r :: r in rows && !r.change.applied ==> KeyOf(r.change) in h
  {
    if rows != [] {
      var n := |rows| - 1;
      DistinctWellFormed(h, rows[..n]);
      assert Changes(rows)[..n] == Changes(rows[..n]);
      assert rows == rows[..n] + [rows[n]];
      var k := KeyOf(rows[n].change);
      LastWins(h, Changes(rows[..n]), k);
      LastOfRows(rows[..n], k);
      LastOfIs(rows[..n], k);
    }
  }

  /** A removal of `k` is left in the queue: it was the last change, and took back nothing untold. */
  predicate Lingers(cs: seq<Change>, told: set<Key>, k: Key) {
    LastChange(cs, k).Some? && !LastChange(cs, k).value.applied && (k in told || !Undone(cs, k))
  }

  /** COLLAPSING LOSES NOTHING: when the told-set is what the client holds, the queue has one row
      for each pair and leaves the client exactly where every raw change would have; and every
      removal in it finds its status exactly when none is left in it of a status not held. */
  lemma CollapseIsSound(h: Held, wave: nat, cs: seq<Change>)
    ensures var rows := QueueAll([], h.Keys, wave, cs);
            && OneRowEach(rows)
            && Play(h, Changes(rows)) == Play(h, cs)
            && (WellFormed(h, Changes(rows)) <==> forall k :: Lingers(cs, h.Keys, k) ==> k in h)
  {
    var rows := QueueAll([], h.Keys, wave, cs);
    QueueHolds(h.Keys, wave, cs, (0, 0));
    forall k ensures Look(Play(h, Changes(rows)), k) == Look(Play(h, cs), k) {
      LastWins(h, Changes(rows), k);
      LastWins(h, cs, k);
      LastOfRows(rows, k);
      QueueHolds(h.Keys, wave, cs, k);
      UndoneEnds(cs, k);
    }
    SameLooks(Play(h, Changes(rows)), Play(h, cs));
    DistinctWellFormed(h, rows);
    RemovalsLeft(h.Keys, wave, cs);
  }

  lemma {:induction false} UndoneEnds(cs: seq<Change>, k: Key)
    ensures Undone(cs, k) ==> LastChange(cs, k).Some? && !LastChange(cs, k).value.applied
    decreases |cs|
  {
    if cs != [] { UndoneEnds(cs[..|cs| - 1], k); }
  }

  /** The removals in the queue are those that linger. */
  lemma RemovalsLeft(told: set<Key>, wave: nat, cs: seq<Change>)
    ensures var rows := QueueAll([], told, wave, cs);
            && (forall r :: r in rows && !r.change.applied ==> Lingers(cs, told, KeyOf(r.change)))
            && (forall k :: Lingers(cs, told, k) ==> exists r :: r in rows && !r.change.applied && KeyOf(r.change) == k)
  {
    var rows := QueueAll([], told, wave, cs);
    QueueHolds(told, wave, cs, (0, 0));
    forall r | r in rows && !r.change.applied ensures Lingers(cs, told, KeyOf(r.change)) {
      QueueHolds(told, wave, cs, KeyOf(r.change));
      OneRowIs(rows, r);
    }
    forall k | Lingers(cs, told, k) ensures exists r :: r in rows && !r.change.applied && KeyOf(r.change) == k {
      QueueHolds(told, wave, cs, k);
      LastOfIs(rows, k);
    }
  }

  // -- riding on an attack ----------------------------------------------------------

  lemma {:induction false} LastOfBoth(a: seq<Change>, b: seq<Change>, k: Key)
    ensures LastChange(a + b, k) == if LastChange(b, k).Some? then LastChange(b, k) else LastChange(a, k)
    decreases |b|
  {
    if b == [] {
      assert a + b == a;
    } else {
      LastOfBoth(a, b[..|b| - 1], k);
      assert (a + b)[..|a + b| - 1] == a + b[..|b| - 1];
    }
  }

  /** No pair is named with different outcomes by the attack's own rows and by the queue. */
  ghost predicate NoClash(own: seq<Change>, queued: seq<Change>) {
    forall k :: LastChange(own, k).Some? && LastChange(queued, k).Some? ==>
      Shown(LastChange(own, k).value) == Shown(LastChange(queued, k).value)
  }

  /** ORDER ON THE WIRE, exactly: the queued changes happened before the attack, yet travel
      behind its own rows. The client ends where the server is if and only if no status is
      named by both with different outcomes. */
  lemma DrainOrder(h: Held, own: seq<Change>, queued: seq<Change>)
    ensures Play(h, own + queued) == Play(h, queued + own) <==> NoClash(own, queued)
  {
    forall k ensures Look(Play(h, own + queued), k) == Look(Play(h, queued + own), k) <==>
                     (LastChange(own, k).Some? && LastChange(queued, k).Some? ==>
                        Shown(LastChange(own, k).value) == Shown(LastChange(queued, k).value))
    {
      LastOfBoth(own, queued, k);
      LastOfBoth(queued, own, k);
      LastWins(h, own + queued, k);
      LastWins(h, queued + own, k);
    }
    if NoClash(own, queued) {
      SameLooks(Play(h, own + queued), Play(h, queued + own));
    }
  }
}
