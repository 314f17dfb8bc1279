/** The relay's rooms and name list as values: what is left of them when a set
    of clients goes, and the insertion-ordered name map. */
module Lobby {
  import opened Words

  const MAX_CLIENTS := 64
  const MAX_ROOMS := 32

  type Name = seq<byte>

  // ---- rooms -------------------------------------------------------------

  /** A used room: its members in join order, which is seat order. */
  datatype Room = Room(started: bool, members: seq<nat>)

  /** The members outside D, in order. */
  function Keep(members: seq<nat>, D: set<nat>): (r: seq<nat>)
    ensures |r| <= |members|
  {
    if members == [] then []
    else (if members[0] in D then [] else [members[0]]) + Keep(members[1..], D)
  }

  lemma {:induction false} KeepAll(members: seq<nat>, D: set<nat>)
    ensures Keep(members, D) == members <==> forall i :: 0 <= i < |members| ==> members[i] !in D
    ensures |Keep(members, D)| == |members| ==> Keep(members, D) == members
    decreases |members|
  {
    if members != [] {
      KeepAll(members[1..], D);
      assert members == [members[0]] + members[1..];
      assert forall i :: 0 <= i < |members[1..]| ==> members[1..][i] == members[i + 1];
      if members[0] in D {
        assert |Keep(members, D)| < |members|;
      }
    }
  }

  lemma {:induction false} KeepTwice(members: seq<nat>, D: set<nat>, E: set<nat>)
    ensures Keep(Keep(members, D), E) == Keep(members, D + E)
    decreases |members|
  {
    if members != [] {
      KeepTwice(members[1..], D, E);
      if members[0] !in D {
        assert Keep(members, D)[1..] == Keep(members[1..], D);
      } else {
        assert Keep(members, D) == Keep(members[1..], D);
      }
    }
  }

  lemma {:induction false} KeepMembers(members: seq<nat>, D: set<nat>, m: nat)
    ensures m in Keep(members, D) <==> m in members && m !in D
    decreases |members|
  {
    if members != [] {
      KeepMembers(members[1..], D, m);
      assert members == [members[0]] + members[1..];
    }
  }

  predicate Distinct(s: seq<nat>) {
    forall i, j :: 0 <= i < j < |s| ==> s[i] != s[j]
  }

  lemma {:induction false} KeepDistinct(members: seq<nat>, D: set<nat>)
    requires Distinct(members)
    ensures Distinct(Keep(members, D))
    decreases |members|
  {
    if members != [] {
      KeepDistinct(members[1..], D);
      KeepMembers(members[1..], D, members[0]);
    }
  }

  /** What the loss of the clients D leaves of one room: nothing changes if no
      member is lost; a started room ends with any of its members, a forming
      one with its host or with its last guest; otherwise the others move up. */
  function Left(r: Option<Room>, D: set<nat>): Option<Room> {
    if r.None? || r.value.members == [] then r
    else
      var kept := Keep(r.value.members, D);
      if kept == r.value.members then r
      else if r.value.started || r.value.members[0] in D || |kept| < 2 then None
      else Some(Room(false, kept))
  }

  // ---- names -------------------------------------------------------------

  datatype Entry = Entry(name: Name, ci: nat)

  /** The lobby order without the entries of D. */
  function Without(names: seq<Entry>, D: set<nat>): (r: seq<Entry>)
    ensures |r| <= |names|
  {
    if names == [] then []
    else (if names[0].ci in D then [] else [names[0]]) + Without(names[1..], D)
  }

  lemma {:induction false} WithoutTwice(names: seq<Entry>, D: set<nat>, E: set<nat>)
    ensures Without(Without(names, D), E) == Without(names, D + E)
    decreases |names|
  {
    if names != [] {
      WithoutTwice(names[1..], D, E);
      if names[0].ci !in D {
        assert Without(names, D)[1..] == Without(names[1..], D);
      } else {
        assert Without(names, D) == Without(names[1..], D);
      }
    }
  }

  lemma {:induction false} WithoutNone(names: seq<Entry>, D: set<nat>)
    requires forall i :: 0 <= i < |names| ==> names[i].ci !in D
    ensures Without(names, D) == names
    decreases |names|
  {
    if names != [] {
      WithoutNone(names[1..], D);
    }
  }

  lemma {:induction false} WithoutHas(names: seq<Entry>, D: set<nat>, e: Entry)
    ensures e in Without(names, D) <==> e in names && e.ci !in D
    decreases |names|
  {
    if names != [] {
      WithoutHas(names[1..], D, e);
      assert names == [names[0]] + names[1..];
    }
  }

  predicate Unique(names: seq<Entry>) {
    forall i, j :: 0 <= i < j < |names| ==> names[i].name != names[j].name && names[i].ci != names[j].ci
  }

  lemma {:induction false} WithoutUnique(names: seq<Entry>, D: set<nat>)
    requires Unique(names)
    ensures Unique(Without(names, D))
    decreases |names|
  {
    if names != [] {
      var rest := Without(names[1..], D);
      WithoutUnique(names[1..], D);
      forall j | 0 <= j < |rest| ensures rest[j].name != names[0].name && rest[j].ci != names[0].ci {
        WithoutHas(names[1..], D, rest[j]);
      }
    }
  }

  /** The first position of a name, or none. */
  function Find(names: seq<Entry>, name: Name): (r: Option<nat>)
    ensures r.Some? ==> r.value < |names| && names[r.value].name == name
    ensures r.None? ==> forall i :: 0 <= i < |names| ==> names[i].name != name
  {
    if names == [] then None
    else if names[0].name == name then Some(0)
    else
      var r := Find(names[1..], name);
      if r.Some? then Some(r.value + 1)
      else
        assert forall i :: 0 < i < |names| ==> names[i] == names[1..][i - 1];
        None
  }

  /** Assigning to a name: in place when it is there, at the end otherwise. */
  function Put(names: seq<Entry>, name: Name, ci: nat): seq<Entry> {
    var r := Find(names, name);
    if r.Some? then names[r.value := Entry(name, ci)] else names + [Entry(name, ci)]
  }

  /** Deleting position i; the others keep their order. */
  function Del(names: seq<Entry>, i: nat): seq<Entry>
    requires i < |names|
  {
    names[..i] + names[i + 1..]
  }

  // ---- the whole lobby ---------------------------------------------------

  datatype View = View(rooms: seq<Option<Room>>, names: seq<Entry>, live: set<nat>)

  /** The lobby once the clients D are gone. */
  function Fall(v: View, D: set<nat>): View {
    View(seq(|v.rooms|, i requires 0 <= i < |v.rooms| => Left(v.rooms[i], D)), Without(v.names, D), v.live - D)
  }

  lemma LeftTwice(r: Option<Room>, D: set<nat>, E: set<nat>)
    ensures Left(Left(r, D), E) == Left(r, D + E)
  {
    if r.Some? && r.value.members != [] {
      var m := r.value.members;
      KeepTwice(m, D, E);
      KeepAll(m, D);
      KeepAll(m, E);
      KeepAll(m, D + E);
      KeepAll(Keep(m, D), E);
      if Keep(m, D) != m && m[0] !in D && |Keep(m, D)| >= 2 {
        assert Keep(m, D)[0] == m[0];
      }
    }
  }

  /** Losses compose: the order in which a cascade drops clients does not
      matter, only who is gone in the end. */
  lemma FallTwice(v: View, D: set<nat>, E: set<nat>)
    ensures Fall(Fall(v, D), E) == Fall(v, D + E)
  {
    WithoutTwice(v.names, D, E);
    forall i | 0 <= i < |v.rooms| ensures Left(Left(v.rooms[i], D), E) == Left(v.rooms[i], D + E) {
      LeftTwice(v.rooms[i], D, E);
    }
    assert v.live - D - E == v.live - (D + E);
    hide Left, Without;
  }

  lemma FallNobody(v: View)
    ensures Fall(v, {}) == v
  {
    WithoutNone(v.names, {});
    forall i | 0 <= i < |v.rooms| ensures Left(v.rooms[i], {}) == v.rooms[i] {
      if v.rooms[i].Some? {
        KeepAll(v.rooms[i].value.members, {});
      }
    }
    hide Left, Without;
  }

  // ---- what holds of every lobby -----------------------------------------

  ghost predicate RoomOk(v: View, r: nat, maxSeats: nat)
    requires r < |v.rooms|
  {
    v.rooms[r].Some? ==>
      var m := v.rooms[r].value.members;
      && Distinct(m) && 2 <= |m| <= maxSeats
      && (forall i :: 0 <= i < |m| ==> m[i] in v.live)
  }

  /** No client is in two rooms. */
  ghost predicate Disjoint(v: View) {
    forall r, q, i, j ::
      (&& 0 <= r < q < |v.rooms| && v.rooms[r].Some? && v.rooms[q].Some?
       && 0 <= i < |v.rooms[r].value.members| && 0 <= j < |v.rooms[q].value.members|) ==>
        v.rooms[r].value.members[i] != v.rooms[q].value.members[j]
  }

  ghost predicate NamesOk(v: View) {
    && Unique(v.names)
    && (forall i :: 0 <= i < |v.names| ==> v.names[i].ci in v.live && v.names[i].name != [])
  }

  ghost predicate Sound(v: View, maxSeats: nat) {
    && (forall r :: 0 <= r < |v.rooms| ==> RoomOk(v, r, maxSeats))
    && Disjoint(v) && NamesOk(v)
  }

  lemma LeftOk(v: View, D: set<nat>, r: nat, maxSeats: nat)
    requires r < |v.rooms| && RoomOk(v, r, maxSeats)
    ensures RoomOk(Fall(v, D), r, maxSeats)
    ensures Fall(v, D).rooms[r].Some? ==>
              v.rooms[r].Some? && forall m :: m in Fall(v, D).rooms[r].value.members ==> m in v.rooms[r].value.members
  {
    if v.rooms[r].Some? {
      var m := v.rooms[r].value.members;
      KeepDistinct(m, D);
      KeepAll(m, D);
      var kept := Keep(m, D);
      forall i | 0 <= i < |kept| ensures kept[i] in m && kept[i] !in D && kept[i] in v.live {
        KeepMembers(m, D, kept[i]);
      }
      hide Keep, Distinct;
    }
  }

  /** A cascade of any shape keeps the lobby sound. */
  lemma FallSound(v: View, D: set<nat>, maxSeats: nat)
    requires Sound(v, maxSeats)
    ensures Sound(Fall(v, D), maxSeats)
  {
    var w := Fall(v, D);
    forall r | 0 <= r < |v.rooms|
      ensures RoomOk(w, r, maxSeats)
      ensures w.rooms[r].Some? ==> v.rooms[r].Some?
                                   && forall m :: m in w.rooms[r].value.members ==> m in v.rooms[r].value.members
    {
      LeftOk(v, D, r, maxSeats);
    }
    DisjointShrinks(v, w);
    WithoutUnique(v.names, D);
    forall i | 0 <= i < |w.names| ensures w.names[i].ci in w.live && w.names[i].name != [] {
      WithoutHas(v.names, D, w.names[i]);
    }
  }

  lemma DisjointShrinks(v: View, w: View)
    requires Disjoint(v) && |w.rooms| == |v.rooms|
    requires forall r :: 0 <= r < |v.rooms| && w.rooms[r].Some? ==>
               v.rooms[r].Some? && forall m :: m in w.rooms[r].value.members ==> m in v.rooms[r].value.members
    ensures Disjoint(w)
  {
    forall r, q, i, j | 0 <= r < q < |w.rooms| && w.rooms[r].Some? && w.rooms[q].Some?
      && 0 <= i < |w.rooms[r].value.members| && 0 <= j < |w.rooms[q].value.members|
      ensures w.rooms[r].value.members[i] != w.rooms[q].value.members[j]
    {
      assert w.rooms[r].value.members[i] in v.rooms[r].value.members;
      assert w.rooms[q].value.members[j] in v.rooms[q].value.members;
    }
  }

  /** A started room is frozen: whatever a cascade does, the room keeps every
      member in its seat or is dissolved. */
  lemma StartedIsFrozen(v: View, D: set<nat>, r: nat)
    requires r < |v.rooms| && v.rooms[r].Some? && v.rooms[r].value.started
    ensures Fall(v, D).rooms[r] == v.rooms[r] || Fall(v, D).rooms[r].None?
    ensures v.rooms[r].value.members != [] ==>
              (Fall(v, D).rooms[r] == v.rooms[r] <==> forall m :: m in v.rooms[r].value.members ==> m !in D)
  {
    KeepAll(v.rooms[r].value.members, D);
  }

  // ---- room allocation ---------------------------------------------------

  function Elements(s: seq<nat>): set<nat> {
    set i | 0 <= i < |s| :: s[i]
  }

  /** Everyone in the first n rooms. */
  function Housed(v: View, n: nat): set<nat>
    requires n <= |v.rooms|
  {
    if n == 0 then {}
    else Housed(v, n - 1) + if v.rooms[n - 1].Some? then Elements(v.rooms[n - 1].value.members) else {}
  }

  lemma {:induction false} HousedIs(v: View, n: nat, m: nat)
    requires n <= |v.rooms|
    ensures m in Housed(v, n) <==> exists r :: 0 <= r < n && v.rooms[r].Some? && m in v.rooms[r].value.members
    decreases n
  {
    if n > 0 {
      HousedIs(v, n - 1, m);
    }
  }

  lemma {:induction false} DistinctCount(s: seq<nat>)
    requires Distinct(s)
    ensures |Elements(s)| == |s|
    decreases |s|
  {
    if s != [] {
      hide Elements;
      DistinctCount(s[..|s| - 1]);
      ElementsGrow(s);
    }
  }

  lemma ElementsGrow(s: seq<nat>)
    requires s != [] && Distinct(s)
    ensures var n := |s| - 1; Elements(s) == Elements(s[..n]) + {s[n]} && s[n] !in Elements(s[..n])
  {
    var n := |s| - 1;
    forall x ensures x in Elements(s) <==> x in Elements(s[..n]) || x == s[n] {
      if x in Elements(s) && x != s[n] {
        var i :| 0 <= i < |s| && s[i] == x;
        assert s[..n][i] == x;
      }
      if x in Elements(s[..n]) {
        var i :| 0 <= i < n && s[..n][i] == x;
        assert s[i] == x;
      }
    }
  }

  lemma {:induction false} HousedCount(v: View, n: nat, maxSeats: nat)
    requires n <= |v.rooms| && Sound(v, maxSeats)
    requires forall r :: 0 <= r < n ==> v.rooms[r].Some?
    ensures |Housed(v, n)| >= 2 * n
    decreases n
  {
    if n > 0 {
      HousedCount(v, n - 1, maxSeats);
      assert RoomOk(v, n - 1, maxSeats);
      DistinctCount(v.rooms[n - 1].value.members);
      NewcomersOnly(v, n);
      assert Housed(v, n) == Housed(v, n - 1) + Elements(v.rooms[n - 1].value.members);
    }
  }

  lemma NewcomersOnly(v: View, n: nat)
    requires 0 < n <= |v.rooms| && Disjoint(v) && v.rooms[n - 1].Some?
    ensures Housed(v, n - 1) * Elements(v.rooms[n - 1].value.members) == {}
  {
    var s := Elements(v.rooms[n - 1].value.members);
    forall x | x in s ensures x !in Housed(v, n - 1) {
      HousedIs(v, n - 1, x);
    }
  }

  lemma {:induction false} Below(n: nat, s: set<nat>)
    requires forall x :: x in s ==> x < n
    ensures |s| <= n
    decreases n
  {
    if n == 0 {
      assert s == {};
    } else {
      Below(n - 1, s - {n - 1});
    }
  }

  /** Two live clients outside every room leave at most 62 for the rooms. */
  lemma Overcrowded(v: View, maxSeats: nat, a: nat, b: nat)
    requires Sound(v, maxSeats) && |v.rooms| == MAX_ROOMS
    requires forall m :: m in v.live ==> m < MAX_CLIENTS
    requires a in v.live && b in v.live && a != b
    requires forall r :: 0 <= r < MAX_ROOMS && v.rooms[r].Some? ==>
               a !in v.rooms[r].value.members && b !in v.rooms[r].value.members
    ensures |Housed(v, MAX_ROOMS)| <= MAX_CLIENTS - 2
  {
    var h := Housed(v, MAX_ROOMS);
    forall x | x in h ensures x < MAX_CLIENTS {
      HousedIs(v, MAX_ROOMS, x);
      var r :| 0 <= r < MAX_ROOMS && v.rooms[r].Some? && x in v.rooms[r].value.members;
      assert RoomOk(v, r, maxSeats);
    }
    HousedIs(v, MAX_ROOMS, a);
    HousedIs(v, MAX_ROOMS, b);
    Below(MAX_CLIENTS, h + {a, b});
    assert |h + {a, b}| == |h| + |{a, b}|;
  }

  /** Room allocation cannot fail while two live clients are in no room: 32
      rooms of two or more would need 66 clients. */
  lemma RoomIsFree(v: View, maxSeats: nat, a: nat, b: nat)
    requires Sound(v, maxSeats) && |v.rooms| == MAX_ROOMS
    requires forall m :: m in v.live ==> m < MAX_CLIENTS
    requires a in v.live && b in v.live && a != b
    requires forall r :: 0 <= r < MAX_ROOMS && v.rooms[r].Some? ==>
               a !in v.rooms[r].value.members && b !in v.rooms[r].value.members
    ensures exists r :: 0 <= r < MAX_ROOMS && v.rooms[r].None?
  {
    Overcrowded(v, maxSeats, a, b);
    if forall r :: 0 <= r < MAX_ROOMS ==> v.rooms[r].Some? {
      HousedCount(v, MAX_ROOMS, maxSeats);
    }
  }

  // ---- name list laws ----------------------------------------------------

  lemma {:induction false} FindUnique(names: seq<Entry>, i: nat)
    requires Unique(names) && i < |names|
    ensures Find(names, names[i].name) == Some(i)
    decreases |names|
  {
    if i > 0 {
      FindUnique(names[1..], i - 1);
    }
  }

  /** Putting a name reads back, leaves every other name's value, keeps names
      unique and keeps everyone's relative order: a known name stays where it
      was, a new one goes last. */
  lemma PutLaws(names: seq<Entry>, name: Name, ci: nat, other: Name)
    requires Unique(names) && (forall i :: 0 <= i < |names| ==> names[i].ci == ci ==> names[i].name == name)
    ensures var r := Put(names, name, ci);
            && Unique(r)
            && Find(r, name) == (if Find(names, name).Some? then Find(names, name) else Some(|names|))
            && r[Find(r, name).value].ci == ci
            && (other != name ==> Find(r, other) == Find(names, other)
                                  && (Find(r, other).Some? ==> r[Find(r, other).value] == names[Find(r, other).value]))
  {
    var r := Put(names, name, ci);
    assert Unique(r);
    FindUnique(r, if Find(names, name).Some? then Find(names, name).value else |names|);
    var o := Find(names, other);
    if other != name && o.Some? {
      FindUnique(r, o.value);
      assert r[o.value] == names[o.value];
    }
  }

  /** Deleting an entry removes its name alone and keeps the others' order. */
  lemma {:induction false} DelIsWithout(names: seq<Entry>, i: nat)
    requires Unique(names) && i < |names|
    ensures Del(names, i) == Without(names, {names[i].ci})
    decreases |names|
  {
    var D := {names[i].ci};
    var rest := names[1..];
    if i == 0 {
      WithoutNone(rest, D);
    } else {
      assert rest[i - 1] == names[i] && names[0].ci !in D;
      assert Unique(rest);
      DelIsWithout(rest, i - 1);
      DelShifts(names, i);
      hide Del, Unique;
    }
  }

  lemma DelShifts(names: seq<Entry>, i: nat)
    requires 0 < i < |names|
    ensures Del(names, i) == [names[0]] + Del(names[1..], i - 1)
  {
  }
}
