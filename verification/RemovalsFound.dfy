/** When a status removal reaches the client, does it hold the status? A removal that finds
    nothing stops the fight. */
module RemovalsFound {
  import opened Wrappers
  import opened Units
  import opened StatusRows
  import opened TurnQueue
  import opened Turns
  import opened Replies
  import opened Bearings
  import opened Told

  // -- rows on the wire ---------------------------------------------------------------

  lemma {:induction false} WellFormedBoth(h: Held, a: seq<Change>, b: seq<Change>)
    ensures WellFormed(h, a + b) <==> WellFormed(h, a) && WellFormed(Play(h, a), b)
    ensures Play(h, a + b) == Play(Play(h, a), b)
    decreases |b|
  {
    if b == [] {
      assert a + b == a;
    } else {
      WellFormedBoth(h, a, b[..|b| - 1]);
      assert (a + b)[..|a + b| - 1] == a + b[..|b| - 1];
    }
  }

  /** Of one row a pair, the removals on the wire that find their status are those of what is held. */
  lemma {:induction false} WireWellFormed(h: Held, rows: seq<Row>, wireable: int -> bool)
    requires OneRowEach(rows)
    ensures WellFormed(h, OnWire(Changes(rows), wireable)) <==>
              forall r :: r in rows && !r.change.applied && wireable(r.change.id) ==> KeyOf(r.change) in h
  {
    if rows != [] {
      var n := |rows| - 1;
      WireWellFormed(h, rows[..n], wireable);
      assert Changes(rows)[..n] == Changes(rows[..n]);
      assert rows == rows[..n] + [rows[n]];
      var k := KeyOf(rows[n].change);
      var out := OnWire(Changes(rows[..n]), wireable);
      LastWins(h, out, k);
      OnWireLast(Changes(rows[..n]), wireable, k);
      LastOfRows(rows[..n], k);
      LastOfIs(rows[..n], k);
      assert (out + [rows[n].change])[..|out|] == out && out + [] == out;
    }
  }

  /** The rows an attack carries, parted into its own and the queued ones. */
  lemma SentParts(w: Wave, done: seq<Effect>, wireable: int -> bool)
    requires Tracks(w)
    ensures StatusOf(w.b, done, wireable) == OnWire(ChangesOf(done), wireable) + OnWire(Changes(w.b.rows), wireable)
    ensures OneRowEach(w.b.rows)
  {
    AllOfWave(w.b.told, w.b.wave, w.gap);
    OfWaveAll(w.b.rows, w.b.wave);
    QueueHolds(w.b.told, w.b.wave, w.gap, (0, 0));
  }

  /** EVERY REMOVAL AN ATTACK SENDS FINDS ITS STATUS, exactly when its own do and the client, having
      played those, holds each status whose removal is left in the queue: the last change of the
      gap took it off, and what it took back had been told. */
  lemma AttackFinds(w: Wave, h: Held, done: seq<Effect>, wireable: int -> bool)
    requires Tracks(w)
    ensures WellFormed(h, StatusOf(w.b, done, wireable)) <==>
              && WellFormed(h, OnWire(ChangesOf(done), wireable))
              && forall k: Key :: wireable(k.1) && Lingers(w.gap, w.b.told, k) ==> k in Play(h, OnWire(ChangesOf(done), wireable))
  {
    var own := OnWire(ChangesOf(done), wireable);
    SentParts(w, done, wireable);
    WellFormedBoth(h, own, OnWire(Changes(w.b.rows), wireable));
    WireWellFormed(Play(h, own), w.b.rows, wireable);
    RemovalsLeft(w.b.told, w.b.wave, w.gap);
    hide Tidy, Lingers;
  }

  // -- a client that is level with the field ------------------------------------------

  /** A removal of `k` is queued. */
  predicate RemovalQueued(b: BattleState, k: Key) {
    LastOf(b.rows, k).Some? && !LastOf(b.rows, k).value.change.applied
  }

  /** What the field holds, the client holds or is about to be told. */
  ghost predicate Knows(b: BattleState, h: Held, wireable: int -> bool) {
    forall k: Key :: wireable(k.1) && Bears(b.units, k) ==>
      match LastOf(b.rows, k) case None => k in h case Some(r) => r.change.applied
  }

  /** What is about to be removed, the client holds. */
  ghost predicate Clean(b: BattleState, h: Held, wireable: int -> bool) {
    forall k: Key :: wireable(k.1) && RemovalQueued(b, k) ==> k in h
  }

  ghost predicate Level(b: BattleState, h: Held, wireable: int -> bool) {
    Knows(b, h, wireable) && Clean(b, h, wireable)
  }

  /** The last change to `k` took it off. */
  predicate TakenOff(cs: seq<Change>, k: Key) {
    LastChange(cs, k).Some? && !LastChange(cs, k).value.applied
  }

  /** A removal that is the first word on a status found it there to begin with. */
  lemma {:induction false} FirstGone(before: bool, cs: seq<Change>, k: Key)
    requires Borne(before, cs, k) && TakenOff(cs, k) && !Undone(cs, k)
    ensures before
    decreases |cs|
  {
    var n := |cs| - 1;
    if KeyOf(cs[n]) != k { FirstGone(before, cs[..n], k); }
  }

  /** The same, though some expiries in between went unsaid. */
  lemma {:induction false} FirstGoneUnsaid(before: bool, a: seq<Change>, lapses: seq<Change>, c: seq<Change>, k: Key)
    requires Borne(before, a + lapses + c, k) && TakenOff(a + c, k) && !Undone(a + c, k)
    requires forall j :: 0 <= j < |lapses| ==> !lapses[j].applied
    ensures before
    decreases |c|
  {
    BorneBoth(before, a + lapses, c, k);
    BorneBoth(before, a, lapses, k);
    if c == [] {
      assert a + c == a;
      FirstGone(before, a, k);
    } else {
      var n := |c| - 1;
      assert (a + c)[..|a + c| - 1] == a + c[..n];
      if KeyOf(c[n]) != k {
        BorneBoth(before, a + lapses, c[..n], k);
        FirstGoneUnsaid(before, a, lapses, c[..n], k);
      } else {
        HeldWithout(before, a, lapses, c[..n], k);
        BorneBoth(before, a + lapses, c[..n], k);
      }
    }
  }

  lemma {:induction false} OnlyRemovals(cs: seq<Change>, k: Key)
    requires forall j :: 0 <= j < |cs| ==> !cs[j].applied
    ensures (LastChange(cs, k).Some? ==> TakenOff(cs, k)) && !Undone(cs, k)
    decreases |cs|
  {
    if cs != [] { OnlyRemovals(cs[..|cs| - 1], k); }
  }

  /** What is held after all is held as the reported changes have it. */
  lemma HeldWithout(before: bool, a: seq<Change>, lapses: seq<Change>, c: seq<Change>, k: Key)
    requires forall j :: 0 <= j < |lapses| ==> !lapses[j].applied
    ensures Moved(before, a + lapses + c, k) ==> Moved(before, a + c, k)
  {
    LastOfBoth(a + lapses, c, k);
    LastOfBoth(a, lapses, k);
    LastOfBoth(a, c, k);
    OnlyRemovals(lapses, k);
  }

  lemma LapsesAreRemovals(b: BattleState, fx: Passives)
    ensures forall j :: 0 <= j < |OwnLapses(b, fx)| ==> !OwnLapses(b, fx)[j].applied
  {
    hide Fire, Kept, Expired;
  }

  /** A TURN KEEPS THE CLIENT LEVEL, exactly: started level with an empty queue, it ends with
      everything on the field known; and every removal it queues finds its status if and only if it
      takes off nothing that was told and that the client has lost since. */
  lemma TurnKeepsLevel(b: BattleState, h: Held, fx: Passives, wireable: int -> bool)
    requires Tidy(b) && b.rows == [] && Knows(b, h, wireable)
    ensures Knows(EndTurn(b, fx), h, wireable)
    ensures Clean(EndTurn(b, fx), h, wireable) <==>
              forall k: Key :: wireable(k.1) && k in b.told && k !in h ==> !TakenOff(TurnChanges(b, fx), k)
  {
    IsValid(b);
    hide EndTurn, TurnChanges, Tidy;
    forall k: Key | wireable(k.1)
      ensures Bears(EndTurn(b, fx).units, k) ==>
                match LastOf(EndTurn(b, fx).rows, k) case None => k in h case Some(r) => r.change.applied
      ensures RemovalQueued(EndTurn(b, fx), k) && k !in h <==> k in b.told && k !in h && TakenOff(TurnChanges(b, fx), k)
    {
      TurnLevelAt(b, h, fx, k);
      assert Bears(b.units, k) ==> k in h;
    }
  }

  lemma TurnLevelAt(b: BattleState, h: Held, fx: Passives, k: Key)
    requires Tidy(b) && b.rows == [] && (Bears(b.units, k) ==> k in h)
    ensures Bears(EndTurn(b, fx).units, k) ==>
              match LastOf(EndTurn(b, fx).rows, k) case None => k in h case Some(r) => r.change.applied
    ensures RemovalQueued(EndTurn(b, fx), k) && k !in h <==> k in b.told && k !in h && TakenOff(TurnChanges(b, fx), k)
  {
    IsValid(b);
    EndTurnQueues(b, fx);
    TurnTells(b, fx, k);
    var a, lapses, c := ActionChanges(b, fx), OwnLapses(b, fx), ClockChanges(b, fx);
    LapsesAreRemovals(b, fx);
    hide EndTurn, ActionChanges, OwnLapses, ClockChanges, Bears;
    HeldWithout(Bears(b.units, k), a, lapses, c, k);
    QueueHolds(b.told, b.wave, a + c, k);
    UndoneEnds(a + c, k);
    if TakenOff(a + c, k) && !Undone(a + c, k) {
      FirstGoneUnsaid(Bears(b.units, k), a, lapses, c, k);
    }
  }

  // -- an attack ------------------------------------------------------------------------

  /** The attack takes off only what the client holds, and does not name a status whose removal is
      still queued behind it. */
  ghost predicate AttackFits(w: Wave, own: seq<Change>, wireable: int -> bool) {
    && WellFormed(w.h, OnWire(own, wireable))
    && forall k: Key :: wireable(k.1) && RemovalQueued(w.b, k) ==> LastChange(own, k).None?
  }

  lemma HeldAfter(h: Held, cs: seq<Change>, k: Key)
    ensures k in Play(h, cs) <==> if LastChange(cs, k).Some? then LastChange(cs, k).value.applied else k in h
  {
    LastWins(h, cs, k);
  }

  /** What the client holds of `k` after the attack. */
  lemma SentHeld(w: Wave, done: seq<Effect>, wireable: int -> bool, k: Key)
    requires Tracks(w) && wireable(k.1)
    ensures var row := LastOf(w.b.rows, k); var own := LastChange(ChangesOf(done), k);
            k in Play(w.h, StatusOf(w.b, done, wireable)) <==>
              if row.Some? then row.value.change.applied else if own.Some? then own.value.applied else k in w.h
    ensures var own := LastChange(ChangesOf(done), k);
            k in Play(w.h, OnWire(ChangesOf(done), wireable)) <==> if own.Some? then own.value.applied else k in w.h
  {
    var own, queued := OnWire(ChangesOf(done), wireable), OnWire(Changes(w.b.rows), wireable);
    SentParts(w, done, wireable);
    OnWireLast(ChangesOf(done), wireable, k);
    OnWireLast(Changes(w.b.rows), wireable, k);
    LastOfRows(w.b.rows, k);
    LastOfBoth(own, queued, k);
    HeldAfter(w.h, own, k);
    HeldAfter(w.h, own + queued, k);
  }

  lemma QueuedLingers(w: Wave, k: Key)
    requires Tracks(w)
    ensures RemovalQueued(w.b, k) <==> Lingers(w.gap, w.b.told, k)
  {
    QueueHolds(w.b.told, w.b.wave, w.gap, k);
  }

  /** AN ATTACK KEEPS THE CLIENT LEVEL, exactly: sent to a client that is level, its removals all
      find their status and nothing on the field is lost to the client if and only if it fits. */
  lemma AttackKeepsLevel(w: Wave, e: Ending, wireable: int -> bool)
    requires Tracks(w) && Level(w.b, w.h, wireable) && Ends(w.b, e, wireable)
    ensures WellFormed(w.h, Sent(e, wireable)) && Knows(e.after, Play(w.h, Sent(e, wireable)), wireable)
       <==> AttackFits(w, Own(e), wireable)
  {
    var own, done := Own(e), Landed(e.before.units, e.es);
    var h' := Play(w.h, Sent(e, wireable));
    assert Sent(e, wireable) == StatusOf(w.b, done, wireable);
    AttackFinds(w, w.h, done, wireable);
    hide Tidy, Sent, Landed, StatusOf, WellFormed;
    forall k: Key | wireable(k.1)
      ensures Bears(e.after.units, k) && k !in h' <==> RemovalQueued(w.b, k) && LastChange(own, k).Some? && LastChange(own, k).value.applied
      ensures Lingers(w.gap, w.b.told, k) && k !in Play(w.h, OnWire(own, wireable)) <==>
                RemovalQueued(w.b, k) && LastChange(own, k).Some? && !LastChange(own, k).value.applied
    {
      AttackAt(w, e, wireable, k);
    }
    assert Knows(e.after, h', wireable) <==> forall k: Key :: wireable(k.1) && Bears(e.after.units, k) ==> k in h';
  }

  lemma AttackAt(w: Wave, e: Ending, wireable: int -> bool, k: Key)
    requires Tracks(w) && Level(w.b, w.h, wireable) && Ends(w.b, e, wireable) && wireable(k.1)
    ensures Bears(e.after.units, k) && k !in Play(w.h, Sent(e, wireable)) <==>
              RemovalQueued(w.b, k) && LastChange(Own(e), k).Some? && LastChange(Own(e), k).value.applied
    ensures Lingers(w.gap, w.b.told, k) && k !in Play(w.h, OnWire(Own(e), wireable)) <==>
              RemovalQueued(w.b, k) && LastChange(Own(e), k).Some? && !LastChange(Own(e), k).value.applied
  {
    assert Sent(e, wireable) == StatusOf(w.b, Landed(e.before.units, e.es), wireable);
    SentHeld(w, Landed(e.before.units, e.es), wireable, k);
    QueuedLingers(w, k);
    assert Bears(e.after.units, k) == Moved(Bears(w.b.units, k), Own(e), k);
    hide Tidy, Sent, Landed, StatusOf;
  }

  // -- whole waves ------------------------------------------------------------------------

  /** Everything told that the client knows, it still holds. */
  ghost predicate Heard(told: set<Key>, h: Held, wireable: int -> bool) {
    forall k: Key :: wireable(k.1) && k in told ==> k in h
  }

  /** Nothing that was told and lost is taken off in the turn that ends. */
  ghost predicate NoneStale(told: set<Key>, h: Held, cs: seq<Change>, wireable: int -> bool) {
    forall k: Key :: wireable(k.1) && k in told && k !in h ==> !TakenOff(cs, k)
  }

  /** One request of a wave that keeps the client level: an attack fits and its turn takes off
      nothing stale, and the client counts out only what is gone. */
  ghost predicate Keeps(w: Wave, t: Beat, wireable: int -> bool)
    requires ValidField(w.b.units)
  {
    && t.env.wireable == wireable && !t.req.ReqNextWave?
    && (match TurnOf(w.b, t.req, t.env)
        case None => true
        case Some(e) =>
          && AttackFits(w, Own(e), wireable)
          && NoneStale(e.after.told, Play(w.h, Sent(e, wireable)), TurnChanges(e.after, t.env.fx), wireable))
    && (var b' := Serve1(w, t).b;
        forall k: Key :: wireable(k.1) && k in t.fades ==> !Bears(b'.units, k) && !RemovalQueued(b', k))
  }

  /** The attack that answers the request, if any, removes only what the client holds. */
  ghost predicate Finds(w: Wave, t: Beat, wireable: int -> bool) {
    var e := TurnOf(w.b, t.req, t.env);
    e.Some? ==> WellFormed(w.h, Sent(e.value, wireable))
  }

  lemma LevelAside(b: BattleState, b': BattleState, h: Held, wireable: int -> bool)
    requires Tidy(b) && Untouched(b, b') && Level(b, h, wireable)
    ensures Level(b', h, wireable)
  {
    UntouchedMoves(b, b');
    forall k: Key ensures Bears(b'.units, k) == Bears(b.units, k) {
      assert LastChange([], k) == None;
    }
  }

  lemma FadesLevel(b: BattleState, h: Held, fades: set<Key>, wireable: int -> bool)
    requires Level(b, h, wireable)
    requires forall k: Key :: wireable(k.1) && k in fades ==> !Bears(b.units, k) && !RemovalQueued(b, k)
    ensures Level(b, h - fades, wireable)
  {
  }

  lemma LevelOnce(w: Wave, t: Beat, wireable: int -> bool)
    requires Tracks(w) && ValidField(w.b.units) && Level(w.b, w.h, wireable) && Keeps(w, t, wireable)
    ensures Tracks(Serve1(w, t)) && Level(Serve1(w, t).b, Serve1(w, t).h, wireable) && Finds(w, t, wireable)
  {
    var w' := Serve1(w, t);
    var o := TurnOf(w.b, t.req, t.env);
    hide TurnOf, Serve1, Untouched, Level, Bears, RemovalQueued;
    if o.None? {
      IdleServed(w, t);
      TracksTidy(w);
      LevelAside(w.b, w'.b, w.h, wireable);
      FadesLevel(w'.b, w.h, t.fades, wireable);
    } else {
      var e := o.value;
      TurnServed(w, t);
      EndsTidy(w.b, e, wireable);
      AttackLevels(w, e, wireable);
      hide Tracks, Ends, AttackFits, EndTurn, TurnChanges, Sent;
      var h' := Play(w.h, Sent(e, wireable));
      TurnLevel(e.after, h', t.env.fx, wireable);
      LevelAside(EndTurn(e.after, t.env.fx), w'.b, h', wireable);
      FadesLevel(w'.b, h', t.fades, wireable);
    }
  }

  lemma TracksTidy(w: Wave)
    requires Tracks(w)
    ensures Tidy(w.b)
  {
  }

  lemma EndsTidy(b: BattleState, e: Ending, wireable: int -> bool)
    requires Ends(b, e, wireable)
    ensures Tidy(e.after) && e.after.rows == [] && ValidField(e.after.units)
  {
  }

  lemma AttackLevels(w: Wave, e: Ending, wireable: int -> bool)
    requires Tracks(w) && Level(w.b, w.h, wireable) && Ends(w.b, e, wireable) && AttackFits(w, Own(e), wireable)
    ensures WellFormed(w.h, Sent(e, wireable)) && Knows(e.after, Play(w.h, Sent(e, wireable)), wireable)
  {
    AttackKeepsLevel(w, e, wireable);
  }

  lemma TurnLevel(b: BattleState, h: Held, fx: Passives, wireable: int -> bool)
    requires Tidy(b) && b.rows == [] && Knows(b, h, wireable) && ValidField(b.units)
    requires NoneStale(b.told, h, TurnChanges(b, fx), wireable)
    ensures Level(EndTurn(b, fx), h, wireable) && Tidy(EndTurn(b, fx))
  {
    hide EndTurn, TurnChanges;
    TurnKeepsLevel(b, h, fx, wireable);
    ClockMovesOn(b, fx);
  }

  ghost predicate KeepsAll(w: Wave, ts: seq<Beat>, wireable: int -> bool)
    requires ValidField(w.b.units)
    decreases |ts|
  {
    ts == [] || (var n := |ts| - 1; KeepsAll(w, ts[..n], wireable) && Keeps(PlayWave(w, ts[..n]), ts[n], wireable))
  }

  ghost predicate FindsAll(w: Wave, ts: seq<Beat>, wireable: int -> bool)
    requires ValidField(w.b.units)
    decreases |ts|
  {
    ts == [] || (var n := |ts| - 1; FindsAll(w, ts[..n], wireable) && Finds(PlayWave(w, ts[..n]), ts[n], wireable))
  }

  /** EVERY REMOVAL FINDS ITS STATUS through a wave that a level client starts, whatever the
      passives and the skills do, while every attack fits, no turn takes off anything stale, and
      the client counts out only what is gone. */
  lemma {:induction false} EveryRemovalFound(w: Wave, ts: seq<Beat>, wireable: int -> bool)
    requires Tracks(w) && ValidField(w.b.units) && Level(w.b, w.h, wireable) && KeepsAll(w, ts, wireable)
    ensures Tracks(PlayWave(w, ts)) && Level(PlayWave(w, ts).b, PlayWave(w, ts).h, wireable) && FindsAll(w, ts, wireable)
    decreases |ts|
  {
    hide Tracks, Level, Keeps, Finds, Serve1;
    if ts != [] {
      var n := |ts| - 1;
      EveryRemovalFound(w, ts[..n], wireable);
      LevelOnce(PlayWave(w, ts[..n]), ts[n], wireable);
    }
  }

  /** A client that counts nothing out by itself never loses what it was told, so for it nothing
      is ever stale. */
  lemma NothingStale(w: Wave, t: Beat, wireable: int -> bool)
    requires Tracks(w) && ValidField(w.b.units) && Heard(w.b.told, w.h, wireable)
    requires t.env.wireable == wireable && !t.req.ReqNextWave? && t.fades == {}
    requires var e := TurnOf(w.b, t.req, t.env); e.Some? ==> AttackFits(w, Own(e.value), wireable)
    ensures Keeps(w, t, wireable) && Heard(Serve1(w, t).b.told, Serve1(w, t).h, wireable)
  {
    var o := TurnOf(w.b, t.req, t.env);
    hide TurnOf, Serve1, Tracks, AttackFits, Ends, Untouched, TurnChanges;
    if o.None? {
      IdleServed(w, t);
    } else {
      TurnServed(w, t);
      HeardOn(w.b.told, w.h, Sent(o.value, wireable), wireable);
      TellsAfter(w.b, o.value, wireable);
    }
  }

  lemma TellsAfter(b: BattleState, e: Ending, wireable: int -> bool)
    requires Ends(b, e, wireable)
    ensures e.after.told == Tell(b.told, Sent(e, wireable))
  {
  }

  lemma {:induction false} HeardOn(told: set<Key>, h: Held, cs: seq<Change>, wireable: int -> bool)
    requires Heard(told, h, wireable)
    ensures Heard(Tell(told, cs), Play(h, cs), wireable)
    decreases |cs|
  {
    if cs != [] { HeardOn(told, h, cs[..|cs| - 1], wireable); }
  }
}
