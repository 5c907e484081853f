/** Switching oceans. */
module Navigation {
  // The part of a switch that runs at once, and the loading of its panels, which comes back at any later
  // time and must not overwrite what a newer switch has put there.

  import opened Graphs

  datatype Axis = Ocean | Avatar | Bell

  /** The declared features, and which of them the bell and the first screen are. */
  datatype Manifest = Manifest(axes: map<Id, Axis>, bell: Id, home: Id)

  ghost predicate WellDeclared(m: Manifest) {
    && m.home in m.axes && !m.axes[m.home].Bell?
    && (forall id {:trigger id in m.axes} :: id in m.axes && m.axes[id].Bell? ==> m.bell in m.axes && m.axes[m.bell].Bell?)
  }

  datatype Mark = OnBell | OnAvatar | On(id: Id)

  /** The panels a switch is waiting for; the bell brings a rail only. */
  datatype Load = Load(token: nat, id: Id, withSea: bool)

  datatype Write = Write(token: nat, id: Id)

  /** `rail` and `sea` list what has been put there, oldest first; the last is what is shown. */
  datatype Desk = Desk(
    current: Option<Id>,
    prev: Id,
    token: nat,
    active: Option<Mark>,
    loads: set<Load>,
    rail: seq<Write>,
    sea: seq<Write>)

  function AtBoot(m: Manifest): Desk {
    Desk(None, m.home, 0, None, {}, [], [])
  }

  predicate IsBell(m: Manifest, id: Id) {
    id in m.axes && m.axes[id].Bell?
  }

  /** The synchronous part of a switch. The bell pressed twice goes back to the last ocean. */
  function Switch(m: Manifest, d: Desk, id: Id): (e: Desk)
    requires !IsBell(m, d.prev)
    ensures !IsBell(m, e.prev) && d.token <= e.token <= d.token + 2
    decreases IsBell(m, id)
  {
    if id !in m.axes then d
    else
      var t := d.token + 1;
      if m.axes[id].Bell? then
        if d.current == Some(m.bell) then Switch(m, d.(token := t), d.prev)
        else d.(token := t, current := Some(m.bell), active := Some(OnBell), loads := d.loads + {Load(t, m.bell, false)})
      else
        d.(token := t, current := Some(id), prev := id, active := Some(if m.axes[id].Avatar? then OnAvatar else On(id)),
           loads := d.loads + {Load(t, id, true)})
  }

  /** A load coming back: dropped if any switch has begun since. */
  function Arrive(d: Desk, load: Load): Desk {
    var e := d.(loads := d.loads - {load});
    if load.token != d.token then e
    else e.(rail := d.rail + [Write(load.token, load.id)],
            sea := if load.withSea then d.sea + [Write(load.token, load.id)] else d.sea)
  }

  // ---- what every interleaving keeps ----

  ghost predicate Increasing(writes: seq<Write>) {
    forall i, j {:trigger Nth(writes, i), Nth(writes, j)} :: 0 <= i < j < |writes| ==> Nth(writes, i).token < Nth(writes, j).token
  }

  /** Everything written before the token `t`. */
  ghost predicate Before(writes: seq<Write>, t: nat) {
    forall i {:trigger Nth(writes, i)} :: 0 <= i < |writes| ==> Nth(writes, i).token < t
  }

  predicate Shows(writes: seq<Write>, w: Write) {
    writes != [] && writes[|writes| - 1] == w
  }

  ghost predicate Waiting(d: Desk) {
    exists load :: load in d.loads && load.token == d.token
  }

  /** The mark that belongs to what is current. */
  function MarkFor(m: Manifest, current: Option<Id>): Option<Mark> {
    match current
    case None => None
    case Some(id) => Some(if IsBell(m, id) then OnBell else if id in m.axes && m.axes[id].Avatar? then OnAvatar else On(id))
  }

  /** The write the latest switch is entitled to. */
  function Due(d: Desk): Write
    requires d.current.Some?
  {
    Write(d.token, d.current.value)
  }

  ghost predicate Coherent(m: Manifest, d: Desk) {
    && d.prev in m.axes && !m.axes[d.prev].Bell?
    && d.active == MarkFor(m, d.current)
    && (d.current.Some? ==> d.current.value == d.prev || (d.current.value == m.bell && IsBell(m, m.bell)))
    && Increasing(d.rail) && Increasing(d.sea) && Before(d.rail, d.token + 1) && Before(d.sea, d.token + 1)
    && (forall load {:trigger load in d.loads} :: load in d.loads ==> load.token <= d.token)
    && (forall load {:trigger load in d.loads} :: load in d.loads && load.token == d.token ==>
          d.current == Some(load.id) && (load.withSea <==> !IsBell(m, load.id)))
    && (Waiting(d) ==> Before(d.rail, d.token) && Before(d.sea, d.token))
    && (!Waiting(d) && d.current.Some? ==> Shows(d.rail, Due(d)) && (!IsBell(m, d.current.value) ==> Shows(d.sea, Due(d))))
    && (d.current.None? ==> d.loads == {} && d.rail == [] && d.sea == [])
  }

  lemma AppendWrite(writes: seq<Write>, w: Write)
    requires Increasing(writes) && Before(writes, w.token)
    ensures Increasing(writes + [w]) && Before(writes + [w], w.token + 1) && Shows(writes + [w], w)
  {
    var longer := writes + [w];
    forall i | 0 <= i < |longer|
      ensures i < |writes| ==> Nth(longer, i) == Nth(writes, i)
      ensures i == |writes| ==> Nth(longer, i) == w
    {
    }
  }

  lemma SwitchKeepsCoherent(m: Manifest, d: Desk, id: Id)
    requires WellDeclared(m) && Coherent(m, d)
    ensures Coherent(m, Switch(m, d, id))
  {
    var e := Switch(m, d, id);
    if id in m.axes {
      assert Load(e.token, e.current.value, !IsBell(m, e.current.value)) in e.loads;
    }
  }

  /** Where a press leads: to the axis pressed, and from the bell, pressed again, back to the ocean left for
      it; and it starts loading that. */
  lemma PressLeads(m: Manifest, d: Desk, id: Id)
    requires WellDeclared(m) && d.prev in m.axes && !IsBell(m, d.prev) && id in m.axes
    ensures var e, to := Switch(m, d, id), if !IsBell(m, id) then id else if d.current == Some(m.bell) then d.prev else m.bell;
            && e.current == Some(to) && e.prev == (if IsBell(m, id) then d.prev else id)
            && e.token > d.token && Load(e.token, to, !IsBell(m, to)) in e.loads
  {
    if IsBell(m, id) && d.current == Some(m.bell) {
      assert Switch(m, d, id) == Switch(m, d.(token := d.token + 1), d.prev);
    }
  }

  /** The bell pressed twice leaves everything but the panels as it was. */
  lemma BellTwice(m: Manifest, d: Desk)
    requires WellDeclared(m) && Coherent(m, d) && IsBell(m, m.bell) && d.current.Some? && !IsBell(m, d.current.value)
    ensures var e := Switch(m, Switch(m, d, m.bell), m.bell);
            e.current == d.current && e.prev == d.prev && e.active == d.active
  {
    SwitchKeepsCoherent(m, d, m.bell);
    SwitchKeepsCoherent(m, Switch(m, d, m.bell), m.bell);
    PressLeads(m, d, m.bell);
    PressLeads(m, Switch(m, d, m.bell), m.bell);
  }

  lemma ArriveKeepsCoherent(m: Manifest, d: Desk, load: Load)
    requires WellDeclared(m) && Coherent(m, d) && load in d.loads
    ensures Coherent(m, Arrive(d, load))
  {
    if load.token == d.token {
      AppendWrite(d.rail, Write(load.token, load.id));
      AppendWrite(d.sea, Write(load.token, load.id));
    } else if Waiting(d) {
      var other :| other in d.loads && other.token == d.token;
      assert other in Arrive(d, load).loads;
    }
  }

  // ---- every interleaving ----

  datatype Event = Pressed(id: Id) | Loaded(load: Load)

  ghost predicate CanHappen(m: Manifest, d: Desk, events: seq<Event>)
    requires !IsBell(m, d.prev)
    decreases |events|
  {
    events == [] ||
    match events[0]
    case Pressed(id) => CanHappen(m, Switch(m, d, id), events[1..])
    case Loaded(load) => load in d.loads && CanHappen(m, Arrive(d, load), events[1..])
  }

  function Happened(m: Manifest, d: Desk, events: seq<Event>): Desk
    requires !IsBell(m, d.prev)
    decreases |events|
  {
    if events == [] then d
    else match events[0]
      case Pressed(id) => Happened(m, Switch(m, d, id), events[1..])
      case Loaded(load) => Happened(m, Arrive(d, load), events[1..])
  }

  lemma {:induction false} EventsKeepCoherent(m: Manifest, d: Desk, events: seq<Event>)
    requires WellDeclared(m) && Coherent(m, d) && CanHappen(m, d, events)
    ensures Coherent(m, Happened(m, d, events))
    decreases |events|
  {
    if events != [] {
      match events[0]
      case Pressed(id) =>
        SwitchKeepsCoherent(m, d, id);
        EventsKeepCoherent(m, Switch(m, d, id), events[1..]);
      case Loaded(load) =>
        ArriveKeepsCoherent(m, d, load);
        EventsKeepCoherent(m, Arrive(d, load), events[1..]);
    }
  }

  /** What has been pressed, in order. */
  function Presses(events: seq<Event>): seq<Id> {
    if events == [] then []
    else (if events[0].Pressed? then [events[0].id] else []) + Presses(events[1..])
  }

  /** What the presses alone decide. */
  ghost predicate SameChoice(d: Desk, e: Desk) {
    d.current == e.current && d.prev == e.prev && d.token == e.token
  }

  lemma SwitchSameChoice(m: Manifest, d: Desk, e: Desk, id: Id)
    requires !IsBell(m, d.prev) && SameChoice(d, e)
    ensures SameChoice(Switch(m, d, id), Switch(m, e, id))
    decreases IsBell(m, id)
  {
    if IsBell(m, id) && d.current == Some(m.bell) {
      SwitchSameChoice(m, d.(token := d.token + 1), e.(token := e.token + 1), d.prev);
    }
  }

  /** Pressing one after the other with nothing coming back in between. */
  function PressAll(m: Manifest, d: Desk, ids: seq<Id>): Desk
    requires !IsBell(m, d.prev)
    decreases |ids|
  {
    if ids == [] then d else PressAll(m, Switch(m, d, ids[0]), ids[1..])
  }

  lemma {:induction false} LoadsChangeNoChoice(m: Manifest, d: Desk, e: Desk, events: seq<Event>)
    requires !IsBell(m, d.prev) && SameChoice(d, e)
    ensures SameChoice(Happened(m, d, events), PressAll(m, e, Presses(events)))
    decreases |events|
  {
    if events != [] {
      match events[0]
      case Pressed(id) =>
        SwitchSameChoice(m, d, e, id);
        assert Presses(events)[1..] == Presses(events[1..]);
        LoadsChangeNoChoice(m, Switch(m, d, id), Switch(m, e, id), events[1..]);
      case Loaded(load) =>
        assert Presses(events) == Presses(events[1..]);
        LoadsChangeNoChoice(m, Arrive(d, load), e, events[1..]);
    }
  }

  /** However the loads interleave, the same presses end, once everything has come back, with the same
      rail, the same highlight and, off the bell, the same sea. */
  lemma LoadOrderIsInvisible(m: Manifest, one: seq<Event>, other: seq<Event>)
    requires WellDeclared(m)
    requires CanHappen(m, AtBoot(m), one) && CanHappen(m, AtBoot(m), other) && Presses(one) == Presses(other)
    ensures var d, e := Happened(m, AtBoot(m), one), Happened(m, AtBoot(m), other);
            d.current == e.current && d.active == e.active == MarkFor(m, d.current) &&
            (d.loads == {} == e.loads && d.current.Some? ==>
               Shows(d.rail, Due(d)) && Shows(e.rail, Due(d)) &&
               (!IsBell(m, d.current.value) ==> Shows(d.sea, Due(d)) && Shows(e.sea, Due(d))))
  {
    EventsKeepCoherent(m, AtBoot(m), one);
    EventsKeepCoherent(m, AtBoot(m), other);
    LoadsChangeNoChoice(m, AtBoot(m), AtBoot(m), one);
    LoadsChangeNoChoice(m, AtBoot(m), AtBoot(m), other);
  }

  /** Under the bell the sea may not be the one of the ocean it would go back to: a switch whose panels
      were still loading when the bell was pressed never gets to show them. */
  lemma BellStrandsTheSea(m: Manifest, first: Id, second: Id) returns (events: seq<Event>)
    requires WellDeclared(m) && IsBell(m, m.bell) && first != second
    requires first in m.axes && second in m.axes && !IsBell(m, first) && !IsBell(m, second)
    ensures CanHappen(m, AtBoot(m), events)
    ensures var d := Happened(m, AtBoot(m), events);
            d.loads == {} && d.current == Some(m.bell) && d.prev == second && d.sea == [Write(1, first)]
  {
    var a := Load(1, first, true);
    var b := Load(2, second, true);
    var c := Load(3, m.bell, false);
    var d1 := Switch(m, AtBoot(m), first);
    var d2 := Arrive(d1, a);
    var d3 := Switch(m, d2, second);
    var d4 := Switch(m, d3, m.bell);
    var d5 := Arrive(d4, b);
    var d6 := Arrive(d5, c);
    assert d4.loads == {b, c} && d6.loads == {};
    var e5 := [Loaded(c)];
    assert e5[1..] == [] && CanHappen(m, d6, []) && CanHappen(m, d5, e5) && Happened(m, d5, e5) == d6;
    var e4 := [Loaded(b)] + e5;
    assert e4[1..] == e5 && CanHappen(m, d4, e4) && Happened(m, d4, e4) == d6;
    var e3 := [Pressed(m.bell)] + e4;
    assert e3[1..] == e4 && CanHappen(m, d3, e3) && Happened(m, d3, e3) == d6;
    var e2 := [Pressed(second)] + e3;
    assert e2[1..] == e3 && CanHappen(m, d2, e2) && Happened(m, d2, e2) == d6;
    var e1 := [Loaded(a)] + e2;
    assert e1[1..] == e2 && CanHappen(m, d1, e1) && Happened(m, d1, e1) == d6;
    events := [Pressed(first)] + e1;
    assert events[1..] == e1;
  }

  // ---- the controller itself ----

  class Controller {
    const manifest: Manifest
    var current: Option<Id>
    var prevNav: Id
    var token: nat
    var active: Option<Mark>
    var loads: set<Load>
    var rail: seq<Write>
    var sea: seq<Write>

    function State(): Desk
      reads this
    {
      Desk(current, prevNav, token, active, loads, rail, sea)
    }

    ghost predicate Valid()
      reads this
    {
      WellDeclared(manifest) && Coherent(manifest, State())
    }

    constructor (m: Manifest)
      requires WellDeclared(m)
      ensures manifest == m && Valid() && State() == AtBoot(m)
    {
      manifest := m;
      current, prevNav, token, active, loads, rail, sea := None, m.home, 0, None, {}, [], [];
    }

    method Begin(id: Id)
      requires !IsBell(manifest, prevNav)
      modifies this
      ensures State() == Switch(manifest, old(State()), id)
      decreases IsBell(manifest, id)
    {
      if id !in manifest.axes {
        return;
      }
      token := token + 1;
      var my := token;
      if manifest.axes[id].Bell? {
        if current == Some(manifest.bell) {
          Begin(prevNav);
          return;
        }
        current := Some(manifest.bell);
        active := Some(OnBell);
        loads := loads + {Load(my, manifest.bell, false)};
        return;
      }
      current, prevNav := Some(id), id;
      active := Some(if manifest.axes[id].Avatar? then OnAvatar else On(id));
      loads := loads + {Load(my, id, true)};
    }

    /** Runs up to the point where the panels are awaited. */
    method SwitchOcean(id: Id)
      requires Valid()
      modifies this
      ensures Valid() && State() == Switch(manifest, old(State()), id)
    {
      SwitchKeepsCoherent(manifest, State(), id);
      Begin(id);
    }

    /** Resumes a switch whose panels have come back. */
    method Resume(load: Load)
      requires Valid() && load in loads
      modifies this
      ensures Valid() && State() == Arrive(old(State()), load)
    {
      ArriveKeepsCoherent(manifest, State(), load);
      loads := loads - {load};
      if load.token != token {
        return;
      }
      rail := rail + [Write(load.token, load.id)];
      if load.withSea {
        sea := sea + [Write(load.token, load.id)];
      }
    }
  }
}
