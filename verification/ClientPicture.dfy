/** The client's picture of who is standing, over whole sessions. */
module ClientPicture {
  import opened Wrappers
  import opened Units
  import opened StatusRows
  import opened TurnQueue
  import opened Turns
  import opened News
  import opened Outbound
  import opened Replies
  import opened Delivery

  /** The units the client draws as standing, by side. */
  datatype Client = Client(party: set<nat>, foes: set<nat>)

  function Fallen(hits: seq<Hit>): set<nat> {
    set k | 0 <= k < |hits| && hits[k].die :: hits[k].order
  }

  /** The orders of a side's units that are shown with hit points left. */
  function Standing(ss: seq<Sight>, team: int): set<nat> {
    set k | 0 <= k < |ss| && ss[k].team == team && ss[k].hp > 0 :: ss[k].order
  }

  /** A client that draws exactly the living. */
  function Present(us: seq<UnitState>): Client {
    Client(OrdersOf(us, TEAM_PLAYER), OrdersOf(us, TEAM_ENEMY))
  }

  function Hear1(c: Client, m: Message): Client {
    match m
    case Attack(hits, _) => Client(c.party - Fallen(hits), c.foes - Fallen(hits))
    case NextWave(enemies, _, _) => c.(foes := Standing(enemies, TEAM_ENEMY))
    case ServerStart(field, _, _, _, _, _, _) => Client(Standing(field, TEAM_PLAYER), Standing(field, TEAM_ENEMY))
    case _ => c
  }

  function Hear(c: Client, ms: seq<Message>): Client
    decreases |ms|
  {
    if ms == [] then c else Hear1(Hear(c, ms[..|ms| - 1]), ms[|ms| - 1])
  }

  predicate Draws(c: Client, u: UnitState) {
    if u.team == TEAM_PLAYER then u.order in c.party else u.order in c.foes
  }

  ghost predicate Queued(b: BattleState, u: UnitState) {
    exists k :: 0 <= k < |b.deaths| && Names(b.deaths[k], u, b.wave)
  }

  /** The client draws everybody who lives; whoever it still draws though dead is named by a
      queued death of this wave; and every such death is true. */
  ghost predicate Informed(b: BattleState, c: Client) {
    && (forall i :: 0 <= i < |b.units| && Alive(b.units[i]) ==> Draws(c, b.units[i]))
    && (forall i :: 0 <= i < |b.units| && !Alive(b.units[i]) && Draws(c, b.units[i]) ==> Queued(b, b.units[i]))
    && TruthfulFrom(b, 0)
  }

  // -- seeing the field -------------------------------------------------------------

  lemma StandingIs(us: seq<UnitState>, team: int)
    ensures Standing(Shows(us), team) == OrdersOf(us, team)
  {
    forall o | o in OrdersOf(us, team) ensures o in Standing(Shows(us), team) {
      var i :| 0 <= i < |us| && us[i].team == team && Alive(us[i]) && us[i].order == o;
      assert Shows(us)[i].hp > 0;
    }
  }

  lemma OrdersOfTeam(us: seq<UnitState>, team: int)
    ensures OrdersOf(OfTeam(us, team), team) == OrdersOf(us, team)
  {
    var them := OfTeam(us, team);
    OfTeamHasAll(us, team);
    forall o | o in OrdersOf(us, team) ensures o in OrdersOf(them, team) {
      var i :| 0 <= i < |us| && us[i].team == team && Alive(us[i]) && us[i].order == o;
      assert us[i] in them;
    }
    forall o | o in OrdersOf(them, team) ensures o in OrdersOf(us, team) {
      var i :| 0 <= i < |them| && them[i].team == team && Alive(them[i]) && them[i].order == o;
      var k :| 0 <= k < |us| && us[k] == them[i];
    }
  }

  lemma {:induction false} OfTeamHasAll(us: seq<UnitState>, team: int)
    ensures forall i :: 0 <= i < |us| && us[i].team == team ==> us[i] in OfTeam(us, team)
  {
    if us != [] {
      OfTeamHasAll(us[..|us| - 1], team);
    }
  }

  /** The new wave is seen as it stands, and the party as before. */
  lemma HearsNextWave(c: Client, b: BattleState)
    ensures Hear1(c, NextWaveMsg(b)) == c.(foes := OrdersOf(b.units, TEAM_ENEMY))
  {
    StandingIs(OfTeam(b.units, TEAM_ENEMY), TEAM_ENEMY);
    OrdersOfTeam(b.units, TEAM_ENEMY);
  }

  /** The whole field is seen as it stands, whatever was drawn before. */
  lemma HearsStart(c: Client, b: BattleState, wireable: int -> bool)
    ensures Hear1(c, StartMsg(b, wireable)) == Present(b.units)
  {
    StandingIs(b.units, TEAM_PLAYER);
    StandingIs(b.units, TEAM_ENEMY);
  }

  // -- steps that only add news -----------------------------------------------------

  lemma FollowsInforms(b: BattleState, b': BattleState, c: Client)
    requires Informed(b, c) && Follows(b, b')
    ensures Informed(b', c)
  {
    TruthLasts(b, b', 0);
    forall i | 0 <= i < |b'.units| && !Alive(b'.units[i]) && Draws(c, b'.units[i])
      ensures Queued(b', b'.units[i])
    {
      if Alive(b.units[i]) {
        var k :| |b.deaths| <= k < |b'.deaths| && Names(b'.deaths[k], b.units[i], b.wave);
        assert Names(b'.deaths[k], b'.units[i], b'.wave);
      } else {
        var k :| 0 <= k < |b.deaths| && Names(b.deaths[k], b.units[i], b.wave);
        assert b'.deaths[k] == b.deaths[k];
        assert Names(b'.deaths[k], b'.units[i], b'.wave);
      }
    }
  }

  // -- attacks tell of their own kills ----------------------------------------------

  lemma {:induction false} HitsTrue(after: seq<UnitState>, es: seq<Effect>)
    ensures forall o :: o in Fallen(HitsOf(after, es)) ==> Dead(after, o)
  {
    if es != [] {
      HitsTrue(after, es[1..]);
      var h := match es[0] { case Strike(t, n) => [Hit(t, n, Dead(after, t) && !StrikesUnit(es[1..], t))] case _ => [] };
      FallenAdds(h, HitsOf(after, es[1..]));
    }
  }

  lemma FallenAdds(a: seq<Hit>, b: seq<Hit>)
    ensures Fallen(a + b) == Fallen(a) + Fallen(b)
  {
    forall o | o in Fallen(a + b) ensures o in Fallen(a) + Fallen(b) {
      var k :| 0 <= k < |a + b| && (a + b)[k].die && (a + b)[k].order == o;
      if k >= |a| { assert b[k - |a|].die; }
    }
    forall o | o in Fallen(a) ensures o in Fallen(a + b) {
      var k :| 0 <= k < |a| && a[k].die && a[k].order == o;
      assert (a + b)[k] == a[k];
    }
    forall o | o in Fallen(b) ensures o in Fallen(a + b) {
      var k :| 0 <= k < |b| && b[k].die && b[k].order == o;
      assert (a + b)[|a| + k] == b[k];
    }
  }

  /** A unit the strikes left dead dies on the last row that names it. */
  lemma {:induction false} HitsComplete(after: seq<UnitState>, es: seq<Effect>, order: nat)
    requires StrikesUnit(es, order) && Dead(after, order)
    ensures order in Fallen(HitsOf(after, es))
  {
    var h := match es[0] { case Strike(t, n) => [Hit(t, n, Dead(after, t) && !StrikesUnit(es[1..], t))] case _ => [] };
    FallenAdds(h, HitsOf(after, es[1..]));
    FirstOrLater(es, order);
    if StrikesUnit(es[1..], order) {
      HitsComplete(after, es[1..], order);
    } else {
      assert h[0].die && h[0].order == order;
    }
  }

  lemma FirstOrLater(es: seq<Effect>, order: nat)
    requires StrikesUnit(es, order)
    ensures (es[0].Strike? && es[0].target == order) || StrikesUnit(es[1..], order)
  {
    var k :| 0 <= k < |es| && es[k].Strike? && es[k].target == order;
    if k > 0 {
      assert es[1..][k - 1] == es[k];
    }
  }

  lemma KillsAreStrikes(es: seq<Effect>, order: nat)
    requires KillsIn(es, order)
    ensures StrikesUnit(es, order)
  {
  }

  /** After an attack the client has heard of every unit it killed, and of nobody alive. */
  lemma AttackInforms(b: BattleState, at: nat, de: nat, slot: int, env: Env, c: Client)
    requires Informed(b, c) && DistinctOrders(b.units)
    ensures var r := ResolveSkill(b, at, de, slot, env); Informed(r.0, Hear1(c, r.1)) && SameRoster(b.units, r.0.units)
  {
    var r := ResolveSkill(b, at, de, slot, env);
    var es := if Find(b.units, at).Some? then env.resolve(b, at, de, slot) else [];
    var us, done := LandAll(b.units, es), Landed(b.units, es);
    LandAllKeeps(b.units, es);
    HitsTrue(us, done);
    assert forall o :: o in Fallen(r.1.hits) ==> Dead(us, o);
    AttackKills(b.units, es, r.1.hits);
    RosterDistinct(b.units, us);
    StruckInforms(b, r.0, c, r.1.hits);
  }

  lemma AttackKills(before: seq<UnitState>, es: seq<Effect>, hits: seq<Hit>)
    requires DistinctOrders(before)
    requires HitsOf(LandAll(before, es), Landed(before, es)) != [] ==> hits == HitsOf(LandAll(before, es), Landed(before, es))
    ensures forall i :: 0 <= i < |before| && Alive(before[i]) && !Alive(LandAll(before, es)[i]) ==> before[i].order in Fallen(hits)
  {
    var us, done := LandAll(before, es), Landed(before, es);
    LandAllKeeps(before, es);
    forall i | 0 <= i < |before| && Alive(before[i]) && !Alive(us[i]) ensures before[i].order in Fallen(hits) {
      DeathHasStrike(before, es, i);
      KillsAreStrikes(done, before[i].order);
      SameRosterFinds(before, us, before[i].order);
      FindsPosition(before, i);
      HitsComplete(us, done, before[i].order);
    }
  }

  lemma StruckInforms(b: BattleState, b': BattleState, c: Client, hits: seq<Hit>)
    requires Informed(b, c) && SameRoster(b.units, b'.units) && DistinctOrders(b'.units)
    requires b'.deaths == b.deaths && b'.wave == b.wave
    requires forall o :: o in Fallen(hits) ==> Dead(b'.units, o)
    requires forall i :: 0 <= i < |b.units| && Alive(b.units[i]) && !Alive(b'.units[i]) ==> b.units[i].order in Fallen(hits)
    ensures Informed(b', Client(c.party - Fallen(hits), c.foes - Fallen(hits)))
  {
    var c' := Client(c.party - Fallen(hits), c.foes - Fallen(hits));
    forall i | 0 <= i < |b'.units| && Alive(b'.units[i]) ensures Draws(c', b'.units[i]) {
      FindsPosition(b'.units, i);
      assert Draws(c, b.units[i]);
    }
    forall i | 0 <= i < |b'.units| && !Alive(b'.units[i]) && Draws(c', b'.units[i]) ensures Queued(b', b'.units[i]) {
      assert !Alive(b.units[i]) && Draws(c, b.units[i]);
      var k :| 0 <= k < |b.deaths| && Names(b.deaths[k], b.units[i], b.wave);
      assert Names(b'.deaths[k], b'.units[i], b'.wave);
    }
    forall k | 0 <= k < |b'.deaths| && b'.deaths[k].die && b'.deaths[k].wave == b'.wave ensures Dead(b'.units, b'.deaths[k].order) {
      SameRosterFinds(b.units, b'.units, b'.deaths[k].order);
    }
  }

  // -- delivering the queue ---------------------------------------------------------

  lemma RowWasQueued(b: BattleState, d: DeathRow)
    requires d in Drain1(b).sent || d in Drain1(b).kept
    ensures d in b.deaths
  {
    DrainConserves(b, Some(1));
    assert d in multiset(b.deaths);
  }

  lemma RowGoesSomewhere(b: BattleState, d: DeathRow)
    requires d in b.deaths && Deliverable(b, d)
    ensures d in Drain1(b).sent || d in Drain1(b).kept
  {
    DrainConserves(b, Some(1));
    assert d in multiset(b.deaths);
  }

  function DrainedDead(w: Drained): set<nat> {
    set k | 0 <= k < |w.sent| && w.sent[k].die :: w.sent[k].order
  }

  lemma {:induction false} HearSent(c: Client, w: Drained)
    requires |w.sent| <= 1
    ensures Hear(c, SentMessages(w)) == Client(c.party - DrainedDead(w), c.foes - DrainedDead(w))
  {
    if w.sent != [] {
      var d := w.sent[0];
      var m := AttackOf(d);
      assert SentMessages(w) == [m] && [m][..0] == [];
      assert Hear(c, [m]) == Hear1(c, m);
      FallenOne(Hit(d.order, d.dmg, d.die));
      DrainedOne(w);
    }
  }

  lemma FallenOne(h: Hit)
    ensures Fallen([h]) == if h.die then {h.order} else {}
  {
    assert [h][0] == h;
  }

  lemma DrainedOne(w: Drained)
    requires |w.sent| == 1
    ensures DrainedDead(w) == if w.sent[0].die then {w.sent[0].order} else {}
  {
  }

  lemma DrainedHas(w: Drained, d: DeathRow)
    ensures d in w.sent && d.die ==> d.order in DrainedDead(w)
  {
  }

  /** Draining a row tells of a death that is true, and loses none. */
  lemma DrainInforms(b: BattleState, c: Client)
    requires Informed(b, c) && DistinctOrders(b.units)
    ensures Informed(b.(deaths := Drain1(b).kept), Hear(c, SentMessages(Drain1(b))))
  {
    var w := Drain1(b);
    var b' := b.(deaths := w.kept);
    DrainsOne(b);
    HearSent(c, w);
    var c' := Client(c.party - DrainedDead(w), c.foes - DrainedDead(w));
    SentAreDead(b);
    forall i | 0 <= i < |b.units| && Alive(b.units[i]) ensures Draws(c', b.units[i]) {
      FindsPosition(b.units, i);
    }
    forall i | 0 <= i < |b.units| && !Alive(b.units[i]) && Draws(c', b.units[i]) ensures Queued(b', b.units[i]) {
      var k :| 0 <= k < |b.deaths| && Names(b.deaths[k], b.units[i], b.wave);
      StillQueued(b, b.units[i], k);
    }
    forall k | 0 <= k < |w.kept| && w.kept[k].die && w.kept[k].wave == b.wave ensures Dead(b.units, w.kept[k].order) {
      RowWasQueued(b, w.kept[k]);
    }
  }

  lemma SentAreDead(b: BattleState)
    requires TruthfulFrom(b, 0)
    ensures forall o :: o in DrainedDead(Drain1(b)) ==> Dead(b.units, o)
  {
    var w := Drain1(b);
    DrainConserves(b, Some(1));
    forall o | o in DrainedDead(w) ensures Dead(b.units, o) {
      var k :| 0 <= k < |w.sent| && w.sent[k].die && w.sent[k].order == o;
      RowWasQueued(b, w.sent[k]);
    }
  }

  lemma StillQueued(b: BattleState, u: UnitState, k: nat)
    requires k < |b.deaths| && Names(b.deaths[k], u, b.wave) && u in b.units && u.order !in DrainedDead(Drain1(b))
    ensures Queued(b.(deaths := Drain1(b).kept), u)
  {
    var d := b.deaths[k];
    var w := Drain1(b);
    assert Find(b.units, d.order).Some?;
    RowGoesSomewhere(b, d);
    DrainedHas(w, d);
    var j :| 0 <= j < |w.kept| && w.kept[j] == d;
    assert Names(w.kept[j], u, b.wave);
  }
}
