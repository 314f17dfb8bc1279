/** What the loss of some clients leaves of the relay's tables, told of the slots,
    the member lists and the room links themselves. */
module Aftermath {
  import opened Words
  import opened Lobby
  import opened RelayState

  /** x comes before y in a list. */
  ghost predicate Precedes<T(!new)>(s: seq<T>, x: T, y: T) {
    exists a, b :: 0 <= a < b < |s| && s[a] == x && s[b] == y
  }

  /** The elements of s outside D, in the order of s. */
  ghost predicate Rest(s: seq<nat>, D: set<nat>, rest: seq<nat>) {
    && (forall x :: x in rest <==> x in s && x !in D)
    && (forall i, j :: 0 <= i < j < |rest| ==> Precedes(s, rest[i], rest[j]))
  }

  ghost predicate RestOfNames(s: seq<Entry>, D: set<nat>, rest: seq<Entry>) {
    && (forall e :: e in rest <==> e in s && e.ci !in D)
    && (forall i, j :: 0 <= i < j < |rest| ==> Precedes(s, rest[i], rest[j]))
  }

  /** A room outlives the loss of D: a started one when it loses nobody; a forming
      one when its host stays and somebody with him. */
  predicate Outlives(r: RoomSlot, D: set<nat>) {
    if r.started then forall x :: x in r.members ==> x !in D
    else r.members != [] && r.members[0] !in D && exists j :: 0 < j < |r.members| && r.members[j] !in D
  }

  /** A room after the loss of D: it goes on in its slot with the members left,
      all linked to it; or its slot is free and those left are in no room. */
  ghost predicate RoomAfter(s: Snap, t: Snap, D: set<nat>, r: nat)
    requires Sized(s) && Sized(t) && r < MAX_ROOMS
  {
    var m := s.rooms[r].members;
    if Outlives(s.rooms[r], D) then
      && t.rooms[r].used && r !in t.leaving && t.rooms[r].started == s.rooms[r].started
      && Rest(m, D, t.rooms[r].members)
      && forall x :: x in t.rooms[r].members ==> Live(t, x) && t.clients[x].room == r
    else
      && !(t.rooms[r].used && r !in t.leaving)
      && forall x :: x in m && Live(t, x) ==> t.clients[x].room == -1
  }

  /** The tables after the loss of D. */
  ghost predicate After(s: Snap, t: Snap, D: set<nat>)
    requires Sized(s) && Sized(t)
  {
    && (forall i: nat :: Live(t, i) <==> Live(s, i) && i !in D)
    && RestOfNames(s.byName, D, t.byName)
    && (forall r: nat :: r < MAX_ROOMS && s.rooms[r].used && r !in s.leaving ==> RoomAfter(s, t, D, r))
  }

  // ---- the lists ---------------------------------------------------------

  lemma PrecedesLater<T(!new)>(s: seq<T>, x: T, y: T)
    requires s != [] && Precedes(s[1..], x, y)
    ensures Precedes(s, x, y)
  {
    var a, b :| 0 <= a < b < |s[1..]| && s[1..][a] == x && s[1..][b] == y;
    assert s[a + 1] == x && s[b + 1] == y;
  }

  lemma FirstPrecedes<T(!new)>(s: seq<T>, y: T)
    requires s != [] && y in s[1..]
    ensures Precedes(s, s[0], y)
  {
    var b :| 0 <= b < |s[1..]| && s[1..][b] == y;
    assert s[b + 1] == y;
  }

  lemma {:induction false} KeepOrdered(m: seq<nat>, D: set<nat>, i: nat, j: nat)
    requires i < j < |Keep(m, D)|
    ensures Precedes(m, Keep(m, D)[i], Keep(m, D)[j])
    decreases |m|
  {
    var later := Keep(m[1..], D);
    if m[0] in D {
      KeepOrdered(m[1..], D, i, j);
      PrecedesLater(m, later[i], later[j]);
    } else if i > 0 {
      KeepOrdered(m[1..], D, i - 1, j - 1);
      PrecedesLater(m, later[i - 1], later[j - 1]);
    } else {
      KeepMembers(m[1..], D, later[j - 1]);
      FirstPrecedes(m, later[j - 1]);
    }
  }

  lemma KeepIsRest(m: seq<nat>, D: set<nat>)
    ensures Rest(m, D, Keep(m, D))
  {
    hide Keep, Precedes;
    forall x ensures x in Keep(m, D) <==> x in m && x !in D {
      KeepMembers(m, D, x);
    }
    forall i, j | 0 <= i < j < |Keep(m, D)| ensures Precedes(m, Keep(m, D)[i], Keep(m, D)[j]) {
      KeepOrdered(m, D, i, j);
    }
  }

  lemma {:induction false} WithoutOrdered(names: seq<Entry>, D: set<nat>, i: nat, j: nat)
    requires i < j < |Without(names, D)|
    ensures Precedes(names, Without(names, D)[i], Without(names, D)[j])
    decreases |names|
  {
    var later := Without(names[1..], D);
    if names[0].ci in D {
      WithoutOrdered(names[1..], D, i, j);
      PrecedesLater(names, later[i], later[j]);
    } else if i > 0 {
      WithoutOrdered(names[1..], D, i - 1, j - 1);
      PrecedesLater(names, later[i - 1], later[j - 1]);
    } else {
      WithoutHas(names[1..], D, later[j - 1]);
      FirstPrecedes(names, later[j - 1]);
    }
  }

  lemma WithoutIsRest(names: seq<Entry>, D: set<nat>)
    ensures RestOfNames(names, D, Without(names, D))
  {
    hide Without, Precedes;
    forall e ensures e in Without(names, D) <==> e in names && e.ci !in D {
      WithoutHas(names, D, e);
    }
    forall i, j | 0 <= i < j < |Without(names, D)| ensures Precedes(names, Without(names, D)[i], Without(names, D)[j]) {
      WithoutOrdered(names, D, i, j);
    }
  }

  /** The host stays and somebody with him. */
  lemma KeptTwo(m: seq<nat>, D: set<nat>)
    requires m != [] && m[0] !in D
    ensures |Keep(m, D)| >= 2 <==> exists j :: 0 < j < |m| && m[j] !in D
  {
    var later := Keep(m[1..], D);
    if j :| 0 < j < |m| && m[j] !in D {
      assert m[1..][j - 1] == m[j];
      KeepMembers(m[1..], D, m[j]);
    }
    if later != [] {
      KeepMembers(m[1..], D, later[0]);
      var k :| 0 <= k < |m[1..]| && m[1..][k] == later[0];
      assert m[k + 1] == later[0];
    }
  }

  /** Which rooms of two or more the fall leaves. */
  lemma LeftIs(r: RoomSlot, D: set<nat>)
    requires |r.members| >= 2
    ensures Left(Some(Room(r.started, r.members)), D)
            == if Outlives(r, D) then Some(Room(r.started, Keep(r.members, D))) else None
  {
    var m := r.members;
    KeepAll(m, D);
    if m[0] !in D {
      KeptTwo(m, D);
    }
    if Keep(m, D) == m {
      assert m[1] !in D;
    }
    hide Keep;
  }

  // ---- the tables --------------------------------------------------------

  lemma RoomGoesOn(s: Snap, t: Snap, D: set<nat>, r: nat, maxSeats: nat)
    requires Ok(s, maxSeats) && Ok(t, maxSeats) && Lost(s, t, D) && r < MAX_ROOMS && RoomAt(s, r).Some?
    ensures RoomAfter(s, t, D, r)
  {
    RoomMembers(s, r, maxSeats);
    LeftIs(s.rooms[r], D);
    RoomFalls(s, t, D, r);
    KeepIsRest(s.rooms[r].members, D);
    if Outlives(s.rooms[r], D) {
      RoomMembers(t, r, maxSeats);
    } else {
      forall x | x in s.rooms[r].members && Live(t, x) ensures t.clients[x].room == -1 {
        EndedHome(s, t, D, r, x, maxSeats);
      }
    }
    hide Outlives, Keep, Rest, Ok, Lost;
  }

  lemma RoomFalls(s: Snap, t: Snap, D: set<nat>, r: nat)
    requires Sized(s) && Sized(t) && ViewOf(t) == Fall(ViewOf(s), D) && r < MAX_ROOMS
    ensures RoomAt(t, r) == Left(RoomAt(s, r), D)
  {
    assert ViewOf(t).rooms[r] == RoomAt(t, r) && ViewOf(s).rooms[r] == RoomAt(s, r);
    hide Left, Without, RoomAt;
  }

  /** Who was in a room that ended is in none: any other it could be in is one it
      was in before. */
  lemma EndedHome(s: Snap, t: Snap, D: set<nat>, r: nat, x: nat, maxSeats: nat)
    requires Ok(s, maxSeats) && Ok(t, maxSeats) && Lost(s, t, D) && r < MAX_ROOMS
    requires RoomAt(s, r).Some? && RoomAt(t, r).None? && x in s.rooms[r].members && Live(t, x)
    ensures t.clients[x].room == -1
  {
    var q := t.clients[x].room;
    if q != -1 {
      StillThere(s, t, D, q, x);
      RoomMembers(s, q, maxSeats);
      RoomMembers(s, r, maxSeats);
    }
  }

  lemma StillThere(s: Snap, t: Snap, D: set<nat>, q: nat, x: nat)
    requires Lost(s, t, D) && q < MAX_ROOMS && RoomAt(t, q).Some? && x in t.rooms[q].members
    ensures RoomAt(s, q).Some? && x in s.rooms[q].members
  {
    RoomFalls(s, t, D, q);
    KeepMembers(s.rooms[q].members, D, x);
    hide Fall, Grown, Keep;
  }

  /** Whatever a cascade takes, the tables are what is left without it. */
  lemma FellAfter(s: Snap, t: Snap, D: set<nat>, maxSeats: nat)
    requires Ok(s, maxSeats) && Ok(t, maxSeats) && Lost(s, t, D)
    ensures After(s, t, D)
  {
    hide RoomAfter;
    forall r: nat | r < MAX_ROOMS && s.rooms[r].used && r !in s.leaving ensures RoomAfter(s, t, D, r) {
      RoomGoesOn(s, t, D, r, maxSeats);
    }
    LivesAfter(s, t, D);
    WithoutIsRest(s.byName, D);
    hide Ok, RestOfNames, Left, Grown;
  }

  lemma LivesAfter(s: Snap, t: Snap, D: set<nat>)
    requires Lost(s, t, D)
    ensures forall i: nat :: Live(t, i) <==> Live(s, i) && i !in D
  {
    assert LiveSet(t) == LiveSet(s) - D;
    forall i: nat ensures Live(t, i) <==> i in LiveSet(t) {
    }
    forall i: nat ensures Live(s, i) <==> i in LiveSet(s) {
    }
    hide Fall, Grown;
  }
}
