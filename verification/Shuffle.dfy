/**
 The shuffle pass of uxshfl.c: the leader moves waiting ux threads (nid 1) up behind the last one
 already moved, relinking the live list as it goes, and hands the rest of the pass on when it
 stops.
 */
module Shuffle {
  import opened TwoQueue

  const MAX_LOCK_COUNT: nat := 50

  class Node {
    const nid: int              // set before the node is queued
    var next: Node?
    var sleader: bool
    var wcount: nat
    var lastVisited: Node?

    constructor (nid: int)
      ensures this.nid == nid && next == null && !sleader && wcount == 0 && lastVisited == null
    {
      this.nid := nid;
      next, sleader, wcount, lastVisited := null, false, 0, null;
    }
  }

  // ----- Stable partition --------------------------------------------------------------

  ghost function Ux(s: seq<Node>): seq<Node> {
    if s == [] then [] else Ux(s[..|s| - 1]) + (if s[|s| - 1].nid == 1 then [s[|s| - 1]] else [])
  }

  ghost function NonUx(s: seq<Node>): seq<Node> {
    if s == [] then [] else NonUx(s[..|s| - 1]) + (if s[|s| - 1].nid == 1 then [] else [s[|s| - 1]])
  }

  /** The list after a pass that visited the v nodes behind the leader. */
  ghost function Shuffled(q: seq<Node>, v: nat): seq<Node>
    requires v < |q|
  {
    [q[0]] + Ux(q[1..v + 1]) + NonUx(q[1..v + 1]) + q[v + 1..]
  }

  lemma {:induction false} Classes(s: seq<Node>)
    ensures forall i :: 0 <= i < |Ux(s)| ==> Ux(s)[i].nid == 1
    ensures forall i :: 0 <= i < |NonUx(s)| ==> NonUx(s)[i].nid != 1
    ensures |Ux(s)| + |NonUx(s)| == |s|
  {
    if s != [] {
      Classes(s[..|s| - 1]);
    }
  }

  lemma {:induction false} ClassesKeepNodes(s: seq<Node>)
    ensures multiset(Ux(s)) + multiset(NonUx(s)) == multiset(s)
  {
    if s != [] {
      var n := |s| - 1;
      ClassesKeepNodes(s[..n]);
      assert s == s[..n] + [s[n]];
      assert multiset(s) == multiset(s[..n]) + multiset{s[n]};
      if s[n].nid == 1 {
        assert multiset(Ux(s)) == multiset(Ux(s[..n])) + multiset{s[n]};
      } else {
        assert multiset(NonUx(s)) == multiset(NonUx(s[..n])) + multiset{s[n]};
      }
    }
  }

  lemma {:induction false} ClassesJoin(s: seq<Node>, t: seq<Node>)
    ensures Ux(s + t) == Ux(s) + Ux(t) && NonUx(s + t) == NonUx(s) + NonUx(t)
  {
    if t == [] {
      assert s + t == s;
    } else {
      ClassesJoin(s, t[..|t| - 1]);
      assert (s + t)[..|s + t| - 1] == s + t[..|t| - 1];
    }
  }

  lemma {:induction false} NoneToMove(s: seq<Node>)
    requires forall i :: 0 <= i < |s| ==> s[i].nid != 1
    ensures Ux(s) == [] && NonUx(s) == s
  {
    if s != [] {
      NoneToMove(s[..|s| - 1]);
      assert s == s[..|s| - 1] + [s[|s| - 1]];
    }
  }

  /** Where the i-th visited node ends up, counting from the leader. */
  ghost function Place(s: seq<Node>, i: nat): nat
    requires i < |s|
  {
    if s[i].nid == 1 then |Ux(s[..i])| else |Ux(s)| + |NonUx(s[..i])|
  }

  /** What the pass does to the segment, without reference to how it is computed: everyone has a
      place, ux threads come first, and within a class the order is the old one. */
  lemma PartitionIsStable(s: seq<Node>, i: nat)
    requires i < |s|
    ensures Place(s, i) < |s| == |Ux(s) + NonUx(s)|
    ensures (Ux(s) + NonUx(s))[Place(s, i)] == s[i]
    ensures forall j :: i < j < |s| && (s[i].nid == 1 || s[j].nid != 1) ==> Place(s, i) < Place(s, j)
    ensures forall j :: i < j < |s| && s[i].nid != 1 && s[j].nid == 1 ==> Place(s, j) < Place(s, i)
  {
    Classes(s);
    PlaceSplits(s, i);
    forall j | i < j < |s|
      ensures s[i].nid == 1 || s[j].nid != 1 ==> Place(s, i) < Place(s, j)
      ensures s[i].nid != 1 && s[j].nid == 1 ==> Place(s, j) < Place(s, i)
    {
      PlaceSplits(s, j);
      PlaceSplits(s[..j], i);
      assert s[..j][..i] == s[..i];
    }
  }

  lemma PlaceSplits(s: seq<Node>, i: nat)
    requires i < |s|
    ensures if s[i].nid == 1 then |Ux(s[..i])| < |Ux(s)| && Ux(s)[|Ux(s[..i])|] == s[i]
            else |NonUx(s[..i])| < |NonUx(s)| && NonUx(s)[|NonUx(s[..i])|] == s[i]
  {
    var rest := s[i + 1..];
    assert s == s[..i] + [s[i]] + rest;
    ClassesJoin(s[..i] + [s[i]], rest);
    ClassesJoin(s[..i], [s[i]]);
    assert [s[i]][..0] == [];
  }

  /** Nobody is lost or duplicated, and the leader and the unvisited rest stay where they are. */
  lemma ShuffledKeepsNodes(q: seq<Node>, v: nat)
    requires v < |q|
    ensures |Shuffled(q, v)| == |q| && multiset(Shuffled(q, v)) == multiset(q)
    ensures Shuffled(q, v)[0] == q[0] && Shuffled(q, v)[v + 1..] == q[v + 1..]
  {
    var seg := q[1..v + 1];
    Classes(seg);
    ClassesKeepNodes(seg);
    assert q == [q[0]] + seg + q[v + 1..];
    assert multiset(q) == multiset{q[0]} + multiset(seg) + multiset(q[v + 1..]);
    var s1 := [q[0]] + Ux(seg) + NonUx(seg);
    assert multiset(s1) == multiset{q[0]} + multiset(Ux(seg)) + multiset(NonUx(seg));
    assert |s1| == v + 1 && Shuffled(q, v) == s1 + q[v + 1..];
  }

  /** What the pass has made of q after v visits: the list, and how many ux threads it moved. */
  ghost predicate Layout(q: seq<Node>, v: nat, list: seq<Node>, l: nat) {
    v < |q| && |list| == |q| && l == |Ux(q[1..v + 1])| <= v && list == Shuffled(q, v)
  }

  lemma LayoutOf(q: seq<Node>, v: nat)
    requires v < |q|
    ensures Layout(q, v, Shuffled(q, v), |Ux(q[1..v + 1])|)
  {
    Classes(q[1..v + 1]);
  }

  /** The p nodes behind the leader are not ux threads. */
  ghost predicate NoUx(q: seq<Node>, p: nat)
    requires p < |q|
  {
    forall i :: 1 <= i <= p ==> q[i].nid != 1
  }

  lemma {:induction false} NothingMoved(q: seq<Node>, p: nat)
    requires p < |q| && NoUx(q, p)
    ensures Layout(q, p, q, 0)
  {
    NoneToMove(q[1..p + 1]);
    assert [q[0]] + [] + q[1..p + 1] + q[p + 1..] == q;
  }

  /** The list as its new leader sees it, and what is in front of that leader. */
  lemma TakenOver(q: seq<Node>, v: nat, q1: seq<Node>, l: nat)
    requires Layout(q, v, q1, l)
    ensures q1[..l + 1] == [q[0]] + Ux(q[1..v + 1])
    ensures q1[l + 1..] == NonUx(q[1..v + 1]) + q[v + 1..]
  {
    Classes(q[1..v + 1]);
    assert q1 == ([q[0]] + Ux(q[1..v + 1])) + (NonUx(q[1..v + 1]) + q[v + 1..]);
  }

  /** What a pass finds when it relinks, in any list it can be in: behind the leader the ux threads it
      moved, and then the others it visited. */
  lemma LayoutClasses(q: seq<Node>, v: nat, list: seq<Node>, l: nat)
    requires Layout(q, v, list, l)
    ensures forall i :: 1 <= i <= l ==> list[i].nid == 1
    ensures forall i :: l < i <= v ==> list[i].nid != 1
  {
    Classes(q[1..v + 1]);
    TakenOver(q, v, list, l);
    forall i | 1 <= i <= l ensures list[i].nid == 1 {
      assert list[i] == list[..l + 1][i];
    }
    forall i | l < i <= v ensures list[i].nid != 1 {
      assert list[i] == list[l + 1..][i - l - 1];
    }
  }

  /** A pass split over two leaders gives the list of one uninterrupted pass: the last ux thread
      moved takes over from where the pass stopped. */
  lemma SplitPassIsOnePass(q: seq<Node>, v: nat, q1: seq<Node>, l: nat, more: nat)
    requires Layout(q, v, q1, l) && v - l <= more < |q| - l
    ensures q1[..l] + Shuffled(q1[l..], more) == Shuffled(q, l + more)
  {
    var seg, rest := q[1..v + 1], q[v + 1..l + more + 1];
    TakenOver(q, v, q1, l);
    SegmentOfNewLeader(q, v, q1, l, more);
    PassOnTop(q[0], seg, rest, q[l + more + 1..], q1, l, more);
    Adjacent(q, v, l + more);
  }

  lemma Adjacent(q: seq<Node>, v: nat, w: nat)
    requires v <= w < |q|
    ensures q[1..v + 1] + q[v + 1..w + 1] == q[1..w + 1]
  {
  }

  lemma {:induction false} PassOnTop(
    first: Node, seg: seq<Node>, rest: seq<Node>, unvisited: seq<Node>, q1: seq<Node>, l: nat, more: nat)
    requires l + more < |q1| && q1[..l + 1] == [first] + Ux(seg)
    requires q1[l..][1..more + 1] == NonUx(seg) + rest && q1[l..][more + 1..] == unvisited
    ensures q1[..l] + Shuffled(q1[l..], more) == [first] + Ux(seg + rest) + NonUx(seg + rest) + unvisited
  {
    ClassesOfTheWhole(seg, rest);
    assert q1[..l] + [q1[l]] == q1[..l + 1];
    Regroup(q1[..l], [q1[l]], [first], Ux(seg), Ux(rest), NonUx(seg) + NonUx(rest), unvisited);
  }

  lemma ClassesOfTheWhole(seg: seq<Node>, rest: seq<Node>)
    ensures Ux(NonUx(seg) + rest) == Ux(rest) && NonUx(NonUx(seg) + rest) == NonUx(seg) + NonUx(rest)
    ensures Ux(seg + rest) == Ux(seg) + Ux(rest) && NonUx(seg + rest) == NonUx(seg) + NonUx(rest)
  {
    Classes(seg);
    NoneToMove(NonUx(seg));
    ClassesJoin(NonUx(seg), rest);
    ClassesJoin(seg, rest);
  }

  lemma Regroup(
    front: seq<Node>, leader: seq<Node>, first: seq<Node>, a: seq<Node>, b: seq<Node>, c: seq<Node>, d: seq<Node>)
    requires front + leader == first + a
    ensures front + (leader + b + c + d) == first + (a + b) + c + d
  {
    calc {
      front + (leader + b + c + d);
      (front + leader) + b + c + d;
      (first + a) + b + c + d;
    }
  }

  lemma SegmentOfNewLeader(q: seq<Node>, v: nat, q1: seq<Node>, l: nat, more: nat)
    requires Layout(q, v, q1, l) && v - l <= more < |q| - l
    ensures q1[l..][1..more + 1] == NonUx(q[1..v + 1]) + q[v + 1..l + more + 1]
    ensures q1[l..][more + 1..] == q[l + more + 1..]
  {
    TakenOver(q, v, q1, l);
    Classes(q[1..v + 1]);
    Behind(q1, l, NonUx(q[1..v + 1]), q, v, more);
  }

  lemma Behind(q1: seq<Node>, l: nat, z: seq<Node>, q: seq<Node>, v: nat, more: nat)
    requires |q1| == |q| && v < |q| && l + |z| == v && |z| <= more < |q| - l
    requires q1[l + 1..] == z + q[v + 1..]
    ensures q1[l..][1..more + 1] == z + q[v + 1..l + more + 1] && q1[l..][more + 1..] == q[l + more + 1..]
  {
    assert q1[l..][1..more + 1] == q1[l + 1..][..more];
    assert q1[l..][more + 1..] == q1[l + 1..][more..];
  }

  /** One pass of a relay: the leader at l, before which the list is done, takes over a shuffle that
      has reached v and carries it on to v'; the last ux thread it moves leads next. */
  ghost predicate HandsOver(w: seq<Node>, l: nat, v: nat, w': seq<Node>, l': nat, v': nat) {
    && l <= v <= v' < |w|
    && w' == w[..l] + Shuffled(w[l..], v' - l)
    && l' == l + |Ux(w[l..][1..v' - l + 1])|
  }

  ghost predicate HandsOverAt(lists: seq<seq<Node>>, leaders: seq<nat>, stops: seq<nat>, i: nat)
    requires i + 1 < |lists| && |lists| == |leaders| == |stops|
  {
    HandsOver(lists[i], leaders[i], stops[i], lists[i + 1], leaders[i + 1], stops[i + 1])
  }

  /** A shuffle split over any number of leaders: the list, the place of the leader and how far the
      shuffle has got, before each pass and at the end. The first leader may have visited some. */
  ghost predicate IsRelay(lists: seq<seq<Node>>, leaders: seq<nat>, stops: seq<nat>) {
    && 0 < |lists| == |leaders| == |stops|
    && Layout(lists[0], stops[0], lists[0], leaders[0]) && leaders[0] == 0
    && forall i: nat :: i < |lists| - 1 ==> HandsOverAt(lists, leaders, stops, i)
  }

  /** However a shuffle is split over leaders, the list is that of one uninterrupted pass, and the
      leader stands where that pass would have moved the last ux thread. */
  lemma {:induction false} RelayIsOnePass(lists: seq<seq<Node>>, leaders: seq<nat>, stops: seq<nat>, i: nat)
    requires IsRelay(lists, leaders, stops) && i < |lists|
    ensures Layout(lists[0], stops[i], lists[i], leaders[i])
  {
    if i > 0 {
      RelayIsOnePass(lists, leaders, stops, i - 1);
      assert HandsOverAt(lists, leaders, stops, i - 1);
      OneMorePass(lists[0], lists[i - 1], leaders[i - 1], stops[i - 1], lists[i], leaders[i], stops[i]);
    }
  }

  lemma OneMorePass(q: seq<Node>, w: seq<Node>, l: nat, v: nat, w': seq<Node>, l': nat, v': nat)
    requires Layout(q, v, w, l) && HandsOver(w, l, v, w', l', v')
    ensures Layout(q, v', w', l')
  {
    SplitPassIsOnePass(q, v, w, l, v' - l);
    SplitPassMovesTheSame(q, v, w, l, v' - l);
    LayoutOf(q, v');
  }

  lemma {:induction false} SplitPassMovesTheSame(q: seq<Node>, v: nat, w: seq<Node>, l: nat, more: nat)
    requires Layout(q, v, w, l) && v - l <= more < |q| - l
    ensures |Ux(q[1..l + more + 1])| == l + |Ux(w[l..][1..more + 1])|
  {
    var seg, rest := q[1..v + 1], q[v + 1..l + more + 1];
    SegmentOfNewLeader(q, v, w, l, more);
    ClassesOfTheWhole(seg, rest);
    Adjacent(q, v, l + more);
  }

  /** What a pass leaves between the last ux thread moved and where it stopped. */
  lemma SkippedAreNotUx(q: seq<Node>, v: nat, q1: seq<Node>, l: nat)
    requires Layout(q, v, q1, l)
    ensures NoUx(q1[l..], v - l)
  {
    Classes(q[1..v + 1]);
    TakenOver(q, v, q1, l);
    forall i | 1 <= i <= v - l ensures q1[l..][i].nid != 1 {
      assert q1[l..][i] == q1[l + 1..][i - 1] == NonUx(q[1..v + 1])[i - 1];
    }
  }

  // ----- The pass ----------------------------------------------------------------------

  ghost predicate Within(s: seq<Node>, all: set<Node>) {
    forall i :: 0 <= i < |s| ==> s[i] in all
  }

  /** The nodes of s, all in the set all, are linked in this order and end in null. */
  ghost predicate Chain(s: seq<Node>, all: set<Node>)
    reads all`next
  {
    && Within(s, all)
    && forall i {:trigger s[i].next} :: 0 <= i < |s| ==> s[i].next == if i + 1 < |s| then s[i + 1] else null
  }

  /** A leader can run: q lists the nodes it can reach, and p of them were visited before, none
      of those a ux thread (they would have been moved). */
  ghost predicate Ready(q: seq<Node>, p: nat, all: set<Node>)
    reads all`next, all`lastVisited
  {
    && p < |q| && Distinct(q) && Chain(q, all)
    && q[0].lastVisited == (if p == 0 then null else q[p])
    && NoUx(q, p)
  }

  /** The one start from which the relinking goes wrong: a leader that is not a ux thread, nothing
      visited, and right behind it a ux thread that has a successor. */
  predicate Unsafe(q: seq<Node>, p: nat)
  {
    p == 0 && |q| > 2 && q[0].nid != 1 && q[1].nid == 1
  }

  /** The node at v + 1 moves to l + 1. */
  function Moved<T>(s: seq<T>, l: nat, v: nat): seq<T>
    requires l <= v && v + 1 < |s|
  {
    s[..l + 1] + [s[v + 1]] + s[l + 1..v + 1] + s[v + 2..]
  }

  /** Where the node that a move leaves at i was before it. */
  function Was(l: nat, v: nat, i: nat): nat
    requires l <= v
  {
    if i <= l then i else if i == l + 1 then v + 1 else if i <= v + 1 then i - 1 else i
  }

  lemma MovedAt<T>(s: seq<T>, l: nat, v: nat, i: nat)
    requires l <= v && v + 1 < |s| && i < |s|
    ensures |Moved(s, l, v)| == |s| && Was(l, v, i) < |s| && Moved(s, l, v)[i] == s[Was(l, v, i)]
  {
  }

  lemma MovedIs(a: seq<Node>, z: seq<Node>, c: Node, r: seq<Node>)
    requires a != []
    ensures Moved(a + z + [c] + r, |a| - 1, |a| + |z| - 1) == a + [c] + z + r
  {
    var s := a + z + [c] + r;
    assert s[..|a|] == a && s[|a|..|a| + |z|] == z && s[|a| + |z| + 1..] == r;
  }

  /** Visiting one more node. */
  lemma VisitNext(q: seq<Node>, v: nat, list: seq<Node>, l: nat)
    requires Layout(q, v, list, l) && v + 1 < |q|
    ensures list[v + 1] == q[v + 1]
    ensures if list[v + 1].nid == 1 then Layout(q, v + 1, Moved(list, l, v), l + 1)
            else Layout(q, v + 1, list, l)
  {
    var seg := q[1..v + 1];
    Classes(seg);
    ClassesGrow(q, v);
    assert q[v + 1..] == [q[v + 1]] + q[v + 2..];
    Reassemble([q[0]], Ux(seg), NonUx(seg), q[v + 1], q[v + 2..]);
  }

  lemma ClassesGrow(q: seq<Node>, v: nat)
    requires v + 1 < |q|
    ensures Ux(q[1..v + 2]) == Ux(q[1..v + 1]) + (if q[v + 1].nid == 1 then [q[v + 1]] else [])
    ensures NonUx(q[1..v + 2]) == NonUx(q[1..v + 1]) + (if q[v + 1].nid == 1 then [] else [q[v + 1]])
  {
    assert q[1..v + 2][..v] == q[1..v + 1];
  }

  lemma Reassemble(first: seq<Node>, a: seq<Node>, z: seq<Node>, c: Node, r: seq<Node>)
    requires |first| == 1
    ensures first + a + z + ([c] + r) == first + (a + []) + (z + [c]) + r
    ensures Moved(first + a + z + ([c] + r), |a|, |a| + |z|) == first + (a + [c]) + (z + []) + r
  {
    MovedIs(first + a, z, c, r);
    assert first + a + z + ([c] + r) == (first + a) + z + [c] + r;
  }

  lemma MoveNowhere(s: seq<Node>, l: nat)
    requires l + 1 < |s|
    ensures Moved(s, l, l) == s
  {
    assert s == s[..l + 1] + [s[l + 1]] + s[l + 2..];
  }

  /** The locals of a call: the thread moved last, or the leader; the node visited last; the count. */
  datatype Locals = Locals(last: Node, prev: Node, count: nat)

  /** The body of the loop, for any three nodes: what it stores when they are not all different is
      part of what it promises. */
  method LoopBody(at: Locals, curr: Node) returns (more: bool, at': Locals)
    modifies at.prev`next, curr`next, at.last`next, curr`wcount
    ensures more <==> curr.nid != 1 || at.prev.nid == 1 || old(curr.next) != null
    ensures at' == if !more then at
                   else if curr.nid != 1 then at.(prev := curr)
                   else Locals(curr, if at.prev.nid == 1 then curr else at.prev, at.count + 1)
    ensures curr.wcount == if more && curr.nid == 1 then at'.count % 0x1_0000 else old(curr.wcount)
    ensures var last, prev, next := at.last, at.prev, old(curr.next);
      if Relinks(prev, curr, next) then
        && last.next == curr
        && (curr != last ==> curr.next == if last == prev then next else old(last.next))
        && (prev != last && prev != curr ==> prev.next == next)
      else prev.next == old(prev.next) && curr.next == next && last.next == old(last.next)
  {
    more, at' := true, at;
    if curr.nid == 1 {
      if at.prev.nid == 1 {
        curr.wcount := (at.count + 1) % 0x1_0000;
        at' := Locals(curr, curr, at.count + 1);
      } else {
        var next := curr.next;
        if next == null {
          return false, at;
        }
        curr.wcount := (at.count + 1) % 0x1_0000;
        at.prev.next := next;
        curr.next := at.last.next;
        at.last.next := curr;
        at' := Locals(curr, at.prev, at.count + 1);
      }
    } else {
      at' := at.(prev := curr);
    }
  }

  /** A ux thread, linked to a successor, behind a thread that is not one. */
  predicate Relinks(prev: Node, curr: Node, next: Node?) {
    curr.nid == 1 && prev.nid != 1 && next != null
  }

  /** What the i-th node of a list leads to after the three stores: prev leads to what followed curr,
      and curr goes behind last. */
  function NextAfter(s: seq<Node>, l: nat, v: nat, i: nat): Node?
    requires l < v && v + 2 < |s| && i < |s|
  {
    if i == l then s[v + 1]
    else if i == v then s[v + 2]
    else if i == v + 1 then s[l + 1]
    else if i + 1 < |s| then s[i + 1]
    else null
  }

  lemma Relinked(s: seq<Node>, l: nat, v: nat, all: set<Node>)
    requires l < v && v + 2 < |s| && Within(s, all)
    requires forall i {:trigger s[i].next} :: 0 <= i < |s| ==> s[i].next == NextAfter(s, l, v, i)
    ensures Chain(Moved(s, l, v), all)
  {
    var t := Moved(s, l, v);
    forall i {:trigger t[i].next} | 0 <= i < |t|
      ensures t[i] in all && t[i].next == if i + 1 < |t| then t[i + 1] else null
    {
      MovedAt(s, l, v, i);
      if i + 1 < |t| {
        MovedAt(s, l, v, i + 1);
      }
    }
  }

  lemma MovedKeepsDistinct<T>(s: seq<T>, l: nat, v: nat)
    requires l <= v && v + 1 < |s| && Distinct(s)
    ensures Distinct(Moved(s, l, v))
  {
    var t := Moved(s, l, v);
    forall i, j | 0 <= i < j < |t| ensures t[i] != t[j] {
      MovedAt(s, l, v, i);
      MovedAt(s, l, v, j);
    }
  }

  /** What a pass has made of the list: the ux thread moved last, or the leader, is at l, and the node
      visited last at v. */
  datatype View = View(list: seq<Node>, l: nat, v: nat)

  /** The view after a visit. */
  function Next(w: View): View
    requires w.l <= w.v && w.v + 1 < |w.list|
  {
    if w.list[w.v + 1].nid == 1 then View(Moved(w.list, w.l, w.v), w.l + 1, w.v + 1) else w.(v := w.v + 1)
  }

  /** The locals fit the view; prev is a ux thread only if it is last, or the leader. */
  ghost predicate Fits(w: View, at: Locals) {
    && w.l <= w.v < |w.list| && Distinct(w.list)
    && at.last == w.list[w.l] && at.prev == w.list[w.v]
    && (w.l > 0 ==> at.last.nid == 1)
    && (w.v > w.l ==> at.prev.nid != 1)
    && !Unsafe(w.list, w.v)
  }

  /** And memory fits the view. */
  ghost predicate At(w: View, at: Locals, all: set<Node>)
    reads all`next
  {
    Fits(w, at) && Chain(w.list, all)
  }

  /** The count kept in the last thread moved: how many this run and those before it moved. */
  ghost predicate Counted(w: View, at: Locals, start: nat)
    reads at.last`wcount
  {
    at.count == start + w.l && (w.l > 0 ==> at.last.wcount == at.count % 0x1_0000)
  }

  /** Where a pass must stop: at most the last node is left to visit. */
  ghost predicate AtEnd(w: View) {
    w.v + 2 >= |w.list|
  }

  /** One visit, of the node behind prev. */
  method Visit(at: Locals, curr: Node, ghost w: View, ghost all: set<Node>) returns (more: bool, at': Locals)
    requires At(w, at, all) && w.v + 1 < |w.list| && curr == w.list[w.v + 1]
    modifies at.prev`next, curr`next, at.last`next, curr`wcount
    ensures more <==> curr.nid != 1 || at.prev.nid == 1 || !AtEnd(w)
    ensures !more ==> at' == at && At(w, at, all)
    ensures more ==> At(Next(w), at', all) && Next(w).list[|w.list| - 1] == w.list[|w.list| - 1]
    ensures at'.count == if more && curr.nid == 1 then at.count + 1 else at.count
    ensures if more && curr.nid == 1 then at'.last.wcount == at'.count % 0x1_0000
            else at'.last == at.last && at.last.wcount == old(at.last.wcount)
  {
    ghost var relinks := Relinks(at.prev, curr, curr.next);
    ghost var list, l, v := w.list, w.l, w.v;
    assert list[v + 1].next == curr.next;
    assert relinks ==> l < v && curr.next == list[v + 2] && list[l].next == list[l + 1];
    more, at' := LoopBody(at, curr);
    if relinks {
      forall i {:trigger list[i].next} | 0 <= i < |list| ensures list[i].next == NextAfter(list, l, v, i) {
        if i != l && i != v && i != v + 1 {
          assert list[i].next == old(list[i].next);
        }
      }
      RelinkFits(w, at, at', all);
    } else {
      assert Chain(list, all);
      if more {
        OtherFits(w, at, at');
      }
    }
  }

  lemma RelinkFits(w: View, at: Locals, at': Locals, all: set<Node>)
    requires Fits(w, at) && Within(w.list, all) && w.l < w.v && w.v + 2 < |w.list| && w.list[w.v + 1].nid == 1
    requires at'.last == w.list[w.v + 1] && at'.prev == at.prev
    requires forall i {:trigger w.list[i].next} :: 0 <= i < |w.list| ==>
      w.list[i].next == NextAfter(w.list, w.l, w.v, i)
    ensures Fits(Next(w), at') && Chain(Next(w).list, all) && Next(w).list[|w.list| - 1] == w.list[|w.list| - 1]
  {
    Relinked(w.list, w.l, w.v, all);
    MovedKeepsDistinct(w.list, w.l, w.v);
    MovedEnds(w.list, w.l, w.v);
  }

  /** A visit that does not relink leaves the list alone. */
  lemma OtherFits(w: View, at: Locals, at': Locals)
    requires Fits(w, at) && w.v + 1 < |w.list| && (at.prev.nid == 1 || w.list[w.v + 1].nid != 1)
    requires at'.prev == w.list[w.v + 1] && at'.last == if at'.prev.nid == 1 then at'.prev else at.last
    ensures Fits(Next(w), at') && Next(w).list == w.list
  {
    if at'.prev.nid == 1 {
      MoveNowhere(w.list, w.l);
    }
  }

  lemma MovedEnds<T>(s: seq<T>, l: nat, v: nat)
    requires l < v && v + 2 < |s|
    ensures var t := Moved(s, l, v);
      |t| == |s| && t[0] == s[0] && t[l + 1] == s[v + 1] && t[v + 1] == s[v] && t[|s| - 1] == s[|s| - 1]
  {
    MovedAt(s, l, v, l + 1);
    MovedAt(s, l, v, v + 1);
    MovedAt(s, l, v, |s| - 1);
    MovedAt(s, l, v, 0);
  }

  /** A pass over q under way. */
  ghost predicate Going(q: seq<Node>, w: View, at: Locals, start: nat, all: set<Node>)
    reads all`next, at.last`wcount
  {
    Layout(q, w.v, w.list, w.l) && At(w, at, all) && Counted(w, at, start)
  }

  /** A visit, with what it makes of the whole pass. */
  method Advance(at: Locals, curr: Node, ghost q: seq<Node>, ghost w: View, ghost start: nat, ghost all: set<Node>)
    returns (more: bool, at': Locals, ghost w': View)
    requires Going(q, w, at, start, all) && w.v + 1 < |w.list| && curr == w.list[w.v + 1]
    modifies at.prev`next, curr`next, at.last`next, curr`wcount
    ensures Going(q, w', at', start, all)
    ensures |w'.list| == |w.list| && w'.list[|q| - 1] == w.list[|q| - 1]
    ensures w'.v == if more then w.v + 1 else w.v
    ensures !more ==> at'.last == at.last && w' == w && AtEnd(w')
  {
    NextIsLaidOut(q, w);
    more, at' := Visit(at, curr, w, all);
    w' := if more then Next(w) else w;
    assert at'.count == start + w'.l;
    assert Counted(w', at', start);
    assert At(w', at', all);
  }

  lemma NextIsLaidOut(q: seq<Node>, w: View)
    requires Layout(q, w.v, w.list, w.l) && w.v + 1 < |w.list| && w.l <= w.v
    ensures Layout(q, Next(w).v, Next(w).list, Next(w).l) && |Next(w).list| == |w.list| == |q|
  {
    VisitNext(q, w.v, w.list, w.l);
  }

  /** One turn of the loop: look behind prev, and visit what is there unless the list ends; tail
      points to the end of the list, or to a thread that has not stored its link yet. */
  method Turn(tail: Node?, at: Locals, ghost q: seq<Node>, ghost w: View, ghost start: nat, ghost all: set<Node>)
    returns (more: bool, at': Locals, ghost w': View)
    requires Going(q, w, at, start, all)
    requires forall i :: 0 <= i < |w.list| - 1 ==> w.list[i] != tail
    modifies all`next, all`wcount
    ensures Going(q, w', at', start, all)
    ensures |w'.list| == |w.list| && w'.list[|q| - 1] == w.list[|q| - 1]
    ensures forall x :: x in all && old(x.next) == null ==> x.next == null
    ensures w'.v == if more then w.v + 1 else w.v
    ensures !more ==> at'.last == at.last && AtEnd(w')
  {
    var curr := at.prev.next;
    assert w.list[w.v].next == curr;
    if curr == null || curr == tail {
      return false, at, w;
    }
    more, at', w' := Advance(at, curr, q, w, start, all);
  }

  // ----- Arrivals ------------------------------------------------------------------------

  /** A thread that links itself behind the last node changes nothing else. */
  lemma Appended(q: seq<Node>, v: nat, list: seq<Node>, l: nat, n: Node)
    requires Layout(q, v, list, l)
    ensures Layout(q + [n], v, list + [n], l)
  {
    assert (q + [n])[1..v + 1] == q[1..v + 1];
    assert (q + [n])[v + 1..] == q[v + 1..] + [n];
    var a := [q[0]] + Ux(q[1..v + 1]) + NonUx(q[1..v + 1]);
    assert a + (q[v + 1..] + [n]) == (a + q[v + 1..]) + [n];
  }

  /** The next arrival stores its link. */
  method LinkNext(end: Node, n: Node, ghost w: View, ghost at: Locals, ghost all: set<Node>)
    requires At(w, at, all) && end == w.list[|w.list| - 1] && !Unsafe(w.list + [n], w.v)
    requires n in all && n !in w.list && n.next == null
    modifies end`next
    ensures At(w.(list := w.list + [n]), at, all)
  {
    end.next := n;
    ghost var list, list' := w.list, w.list + [n];
    forall i {:trigger list'[i].next} | 0 <= i < |list'|
      ensures list'[i].next == if i + 1 < |list'| then list'[i + 1] else null
    {
      assert i < |list| - 1 ==> list[i] != end && list[i].next == old(list[i].next);
    }
  }

  /** What a call is given: the list q from the leader on, of which p nodes were visited before, the
      last node linked, the threads that will link themselves behind it, in this order, while the pass
      runs, and the count to go on from; all holds the nodes. */
  datatype Call = Call(q: seq<Node>, p: nat, end: Node, arrivals: seq<Node>, start: nat, all: set<Node>)

  /** The first n arrivals have linked themselves, and no other. */
  ghost predicate Coming(c: Call, n: nat)
    reads c.all`next
  {
    && n <= |c.arrivals| && Distinct(c.q + c.arrivals) && Within(c.arrivals, c.all)
    && forall i :: n <= i < |c.arrivals| ==> c.arrivals[i].next == null
  }

  /** The list with them, if nobody had moved. */
  function Longer(c: Call, n: nat): seq<Node>
    requires n <= |c.arrivals|
  {
    c.q + c.arrivals[..n]
  }

  /** The last node linked. */
  function EndOf(c: Call, n: nat): Node
    requires n <= |c.arrivals|
  {
    if n == 0 then c.end else c.arrivals[n - 1]
  }

  /** A pass under way, with n arrivals so far. */
  ghost predicate Under(c: Call, n: nat, w: View) {
    && n <= |c.arrivals| && c.p <= w.v && Layout(Longer(c, n), w.v, w.list, w.l)
    && w.list[|w.list| - 1] == EndOf(c, n)
  }

  lemma NotYetIn(c: Call, n: nat, w: View)
    requires n < |c.arrivals| && Distinct(c.q + c.arrivals) && Layout(Longer(c, n), w.v, w.list, w.l)
    ensures forall i :: n <= i < |c.arrivals| ==> c.arrivals[i] !in w.list
  {
    forall i | n <= i < |c.arrivals| ensures c.arrivals[i] !in w.list {
      ComesLater(c.q, c.arrivals, n, i);
      StaysOutside(Longer(c, n), w, c.arrivals[i]);
    }
  }

  lemma ComesLater(q: seq<Node>, arrivals: seq<Node>, n: nat, i: nat)
    requires n <= i < |arrivals| && Distinct(q + arrivals)
    ensures arrivals[i] !in q + arrivals[..n]
  {
    var q', all := q + arrivals[..n], q + arrivals;
    forall k | 0 <= k < |q'| ensures q'[k] != arrivals[i] {
      assert all[k] == q'[k] && all[|q| + i] == arrivals[i];
    }
  }

  lemma StaysOutside(q: seq<Node>, w: View, x: Node)
    requires x !in q && Layout(q, w.v, w.list, w.l)
    ensures x !in w.list
  {
    ShuffledKeepsNodes(q, w.v);
    assert x !in multiset(q) && x !in multiset(w.list);
  }

  function Grown(c: Call, n: nat, w: View): View
    requires n < |c.arrivals|
  {
    w.(list := w.list + [c.arrivals[n]])
  }

  lemma UnderGrows(c: Call, n: nat, w: View)
    requires n < |c.arrivals| && Under(c, n, w)
    ensures Under(c, n + 1, Grown(c, n, w))
  {
    Appended(Longer(c, n), w.v, w.list, w.l, c.arrivals[n]);
    assert Longer(c, n + 1) == Longer(c, n) + [c.arrivals[n]];
  }

  lemma StaysSafe(c: Call, n: nat, w: View)
    requires n < |c.arrivals| && c.p <= w.v && Layout(Longer(c, n), w.v, w.list, w.l)
    requires !Unsafe(c.q + c.arrivals, c.p)
    ensures !Unsafe(Grown(c, n, w).list, w.v)
  {
    var q' := Longer(c, n);
    if w.v == 0 {
      assert Ux(q'[1..1]) == [] && NonUx(q'[1..1]) == [];
      assert w.list == [q'[0]] + q'[1..];
      assert w.list == q';
      assert w.list + [c.arrivals[n]] == (c.q + c.arrivals)[..|c.q| + n + 1];
    }
  }

  method LinkOne(c: Call, n: nat, ghost w: View, ghost at: Locals)
    requires n < |c.arrivals| && Coming(c, n) && !Unsafe(c.q + c.arrivals, c.p)
    requires Under(c, n, w) && At(w, at, c.all)
    modifies c.all`next
    ensures Coming(c, n + 1) && At(Grown(c, n, w), at, c.all)
  {
    NotYetIn(c, n, w);
    StaysSafe(c, n, w);
    assert w.list[|w.list| - 1] in c.all;
    LinkNext(EndOf(c, n), c.arrivals[n], w, at, c.all);
  }

  /** The list and the locals, whatever the count. */
  ghost predicate Open(c: Call, n: nat, w: View, at: Locals)
    reads c.all`next
  {
    Coming(c, n) && Under(c, n, w) && At(w, at, c.all)
  }

  /** Any number of arrivals link themselves. */
  method LinkSome(c: Call, n0: nat, ghost w0: View, ghost at: Locals) returns (n: nat, ghost w: View)
    requires Open(c, n0, w0, at) && !Unsafe(c.q + c.arrivals, c.p)
    modifies c.all`next
    ensures n0 <= n && Open(c, n, w, at) && w.l == w0.l && w.v == w0.v
  {
    n, w := n0, w0;
    var again := *;
    while again && n < |c.arrivals|
      invariant n0 <= n <= |c.arrivals| && Open(c, n, w, at)
      invariant w.l == w0.l && w.v == w0.v
      decreases |c.arrivals| - n
    {
      LinkOne(c, n, w, at);
      UnderGrows(c, n, w);
      n, w := n + 1, Grown(c, n, w);
      again := *;
    }
  }

  /** The state of the loop. */
  ghost predicate Running(c: Call, n: nat, w: View, at: Locals)
    reads c.all`next, at.last`wcount
  {
    Open(c, n, w, at) && Counted(w, at, c.start)
  }

  lemma UnderGoesOn(c: Call, n: nat, w: View, w': View)
    requires Under(c, n, w) && w.v <= w'.v && Layout(Longer(c, n), w'.v, w'.list, w'.l)
    requires |w.list| == |w'.list| && w'.list[|w.list| - 1] == w.list[|w.list| - 1]
    ensures Under(c, n, w')
  {
  }

  /** tail is the end of the list, or a thread that comes later. */
  lemma TailIsOutside(c: Call, n: nat, w: View, tail: Node)
    requires Under(c, n, w) && Distinct(c.q + c.arrivals) && Distinct(w.list)
    requires tail == EndOf(c, n) || (n < |c.arrivals| && tail == c.arrivals[n])
    ensures forall i :: 0 <= i < |w.list| - 1 ==> w.list[i] != tail
  {
    if n < |c.arrivals| {
      NotYetIn(c, n, w);
    }
  }

  /** One turn of the loop, after whatever arrived. */
  method Round(c: Call, n0: nat, at0: Locals, ghost w0: View)
    returns (more: bool, n: nat, at: Locals, ghost w: View)
    requires Running(c, n0, w0, at0) && !Unsafe(c.q + c.arrivals, c.p)
    modifies c.all`next, c.all`wcount
    ensures Running(c, n, w, at)
    ensures w.v == if more then w0.v + 1 else w0.v
    ensures !more ==> at.last == at0.last && AtEnd(w)
  {
    ghost var before;
    n, before := LinkSome(c, n0, w0, at0);
    var pending := *;
    var tail := if pending && n < |c.arrivals| then c.arrivals[n] else EndOf(c, n);
    TailIsOutside(c, n, before, tail);
    more, at, w := Turn(tail, at0, Longer(c, n), before, c.start, c.all);
    RoundGoesOn(c, n, before, w, at);
  }

  lemma RoundGoesOn(c: Call, n: nat, w: View, w': View, at: Locals)
    requires Under(c, n, w) && w.v <= w'.v && Coming(c, n) && Going(Longer(c, n), w', at, c.start, c.all)
    requires |w.list| == |w'.list| && w'.list[|w.list| - 1] == w.list[|w.list| - 1]
    ensures Running(c, n, w', at)
  {
    UnderGoesOn(c, n, w, w');
  }

  /** The loop. It may be told to stop once a ux thread was moved, and threads may arrive; wherever it
      stops, the list is the stable partition of what it visited, with those who arrived behind. */
  method Pass(c: Call, node: Node, prev: Node) returns (at: Locals, n: nat, ghost w: View)
    requires Layout(c.q, c.p, c.q, 0) && At(View(c.q, 0, c.p), Locals(node, prev, c.start), c.all)
    requires c.end == c.q[|c.q| - 1] && Coming(c, 0) && !Unsafe(c.q + c.arrivals, c.p)
    modifies c.all`next, c.all`wcount
    ensures Running(c, n, w, at)
    ensures at.last == node ==> AtEnd(w)
  {
    var more, released := true, false;
    at, n, w := Locals(node, prev, c.start), 0, View(c.q, 0, c.p);
    assert Longer(c, 0) == c.q;
    while more && !(at.last != node && released)
      invariant Running(c, n, w, at)
      invariant !more ==> AtEnd(w)
      decreases |c.q| + |c.arrivals| - w.v, more
    {
      more, n, at, w := Round(c, n, at, w);
      released := *;
    }
  }

  /** Handing over: the thread moved last, or the leader again, is ready to lead from where the
      pass stopped. */
  lemma HandedOver(q: seq<Node>, v: nat, list: seq<Node>, l: nat, all: set<Node>)
    requires Layout(q, v, list, l) && Distinct(list) && Chain(list, all)
    requires list[l].lastVisited == if v == l then null else list[v]
    ensures Ready(list[l..], v - l, all)
  {
    SkippedAreNotUx(q, v, list, l);
    RestIsChain(list, l, all);
  }

  lemma RestIsChain(s: seq<Node>, k: nat, all: set<Node>)
    requires Chain(s, all) && k <= |s|
    ensures Chain(s[k..], all)
  {
    var rest := s[k..];
    forall i {:trigger rest[i].next} | 0 <= i < |rest|
      ensures rest[i].next == if i + 1 < |rest| then rest[i + 1] else null
    {
      assert s[k + i].next == rest[i].next;
    }
  }

  /** The ux flags of a list. */
  function Kinds(q: seq<Node>): (ks: seq<bool>)
    ensures |ks| == |q| && forall i :: 0 <= i < |q| ==> ks[i] == (q[i].nid == 1)
  {
    seq(|q|, i requires 0 <= i < |q| => q[i].nid == 1)
  }

  predicate UnsafeKinds(ks: seq<bool>, p: nat) {
    p == 0 && |ks| > 2 && !ks[0] && ks[1]
  }

  lemma KindsTell(q: seq<Node>, p: nat)
    ensures Unsafe(q, p) <==> UnsafeKinds(Kinds(q), p)
  {
  }

  /** The start is safe whoever links himself behind it. */
  ghost predicate SafeForAll(q: seq<Node>, p: nat) {
    forall later: seq<bool> :: !UnsafeKinds(Kinds(q) + later, p)
  }

  /** That is so exactly when the leader is a ux thread, or has visited somebody, or the one linked
      behind it is not a ux thread. */
  lemma SafeForAllIff(q: seq<Node>, p: nat)
    requires q != []
    ensures SafeForAll(q, p) <==> q[0].nid == 1 || p > 0 || (|q| > 1 && q[1].nid != 1)
  {
    if !(q[0].nid == 1 || p > 0 || (|q| > 1 && q[1].nid != 1)) {
      assert UnsafeKinds(Kinds(q) + [true, true], p);
    }
  }

  /** A start is unsafe with some arrivals behind it only if it is not safe for all. */
  lemma SafeWithArrivals(q: seq<Node>, p: nat, later: seq<Node>)
    requires SafeForAll(q, p)
    ensures !Unsafe(q + later, p)
  {
    KindsTell(q + later, p);
    assert Kinds(q + later) == Kinds(q) + Kinds(later);
  }

  method SetSleader(node: Node, qend: Node?)
    modifies node`sleader, node`lastVisited
    ensures node.sleader && node.lastVisited == if qend == node then old(node.lastVisited) else qend
  {
    node.sleader := true;
    if qend != node {
      node.lastVisited := qend;
    }
  }

  /** The leader to come is a ux thread, or has a place to go on from, or sees a thread behind it that
      is not a ux thread. */
  predicate Settled(sleader: Node)
    reads sleader, sleader.next
  {
    sleader.nid == 1 || sleader.lastVisited != null || (sleader.next != null && sleader.next.nid != 1)
  }

  /** What a pass leaves: the list, and a leader who is ready to go on from where the pass stopped. */
  ghost predicate HandsOn(c: Call, n: nat, w: View, node: Node, sleader: Node?)
    reads c.all
  {
    Relaid(c, n, w) && LeadsNext(c, w, sleader) && (sleader == node ==> AtEnd(w))
  }

  ghost predicate Relaid(c: Call, n: nat, w: View)
    reads c.all`next
  {
    Coming(c, n) && Under(c, n, w) && Chain(w.list, c.all)
  }

  /** The start of the leader is safe, and stays so whoever comes exactly when it is settled. */
  ghost predicate LeadsNext(c: Call, w: View, sleader: Node?)
    reads c.all
  {
    && w.l <= w.v < |w.list| && sleader == w.list[w.l] && sleader in c.all && sleader.sleader
    && Ready(w.list[w.l..], w.v - w.l, c.all) && !Unsafe(w.list[w.l..], w.v - w.l)
    && LeadsOn(w.list[w.l..], w.v - w.l, c.all)
  }

  /** Whether a start stays safe, from what its leader can see. */
  ghost predicate LeadsOn(q: seq<Node>, p: nat, all: set<Node>)
    reads all
  {
    q != [] && Within(q, all) && Chain(q, all) && (SafeForAll(q, p) <==> Settled(q[0]))
  }

  lemma ReadyLeadsOn(q: seq<Node>, p: nat, all: set<Node>)
    requires Ready(q, p, all)
    ensures LeadsOn(q, p, all)
  {
    SafeForAllIff(q, p);
    assert q[0].next == if |q| > 1 then q[1] else null;
  }

  /** What the loop starts from. */
  ghost predicate Starts(c: Call, node: Node, prev: Node)
    reads c.all
  {
    && Layout(c.q, c.p, c.q, 0) && At(View(c.q, 0, c.p), Locals(node, prev, c.start), c.all)
    && c.end == c.q[|c.q| - 1] && Coming(c, 0) && !Unsafe(c.q + c.arrivals, c.p)
    && NeverLed(c.q + c.arrivals, if c.p == 0 then 0 else 1, c.all)
  }

  /** A call that runs a pass: the leader, or the last thread moved, leads on. */
  method RunPass(c: Call, node: Node, prev: Node) returns (sleader: Node, n: nat, ghost w: View)
    requires Starts(c, node, prev)
    modifies c.all`next, c.all`wcount, c.all`sleader, c.all`lastVisited
    ensures HandsOn(c, n, w, node, sleader)
    ensures forall x :: x in c.all && x != sleader ==> x.lastVisited == old(x.lastVisited)
    ensures sleader != node ==> node.sleader == old(node.sleader)
    ensures sleader != node ==> sleader.wcount == (c.start + w.l) % 0x1_0000
  {
    var at;
    at, n, w := Pass(c, node, prev);
    sleader := at.last;
    assert Under(c, n, w) && Fits(w, at) && sleader in c.all;
    NeverLedYet(c, n, w);
    SetSleader(sleader, at.prev);
    GoesOnFrom(c, n, w, node, sleader);
  }

  lemma GoesOnFrom(c: Call, n: nat, w: View, node: Node, sleader: Node)
    requires Coming(c, n) && Under(c, n, w) && Chain(w.list, c.all) && Distinct(w.list) && w.l <= w.v < |w.list|
    requires sleader == w.list[w.l] && sleader.sleader && (w.l > 0 ==> sleader.nid == 1) && !Unsafe(w.list, w.v)
    requires sleader.lastVisited == if w.v == w.l then null else w.list[w.v]
    requires sleader == node ==> AtEnd(w)
    ensures HandsOn(c, n, w, node, sleader)
  {
    HandedOver(Longer(c, n), w.v, w.list, w.l, c.all);
    ReadyLeadsOn(w.list[w.l..], w.v - w.l, c.all);
  }

  /** The nodes from i on have not been given a place to go on from. */
  ghost predicate NeverLed(q: seq<Node>, i: nat, all: set<Node>)
    reads all`lastVisited
  {
    && Within(q, all)
    && forall k :: i <= k < |q| ==> q[k].lastVisited == null
  }

  /** The next leader is one of them, unless it is the leader, which has none only if nothing was
      visited before. */
  lemma NeverLedYet(c: Call, n: nat, w: View)
    requires c.q != [] && n <= |c.arrivals| && c.p <= w.v && Layout(Longer(c, n), w.v, w.list, w.l)
    requires Distinct(w.list) && NeverLed(c.q + c.arrivals, if c.p == 0 then 0 else 1, c.all)
    ensures w.list[0] == c.q[0]
    ensures w.v == w.l ==> w.list[w.l].lastVisited == null
  {
    var q', l := Longer(c, n), w.l;
    ShuffledIsWithin(q', w.v, w.list, l);
    var k :| 0 <= k < |q'| && q'[k] == w.list[l];
    assert q'[k] == (c.q + c.arrivals)[k];
    assert k == 0 ==> w.list[l] == w.list[0];
  }

  lemma ShuffledIsWithin(q: seq<Node>, v: nat, list: seq<Node>, l: nat)
    requires Layout(q, v, list, l)
    ensures list[l] in q
  {
    ShuffledKeepsNodes(q, v);
    assert list[l] in multiset(list);
  }

  /** The list is as it was, and whoever is next leads, from scratch. That start is the one a call does
      not make sure of: it is unsafe exactly when the next is not a ux thread, and a ux thread with
      a successor is right behind it. */
  ghost predicate PassesOn(q: seq<Node>, sleader: Node?, all: set<Node>)
    reads all
  {
    && q != [] && Chain(q, all)
    && (|q| == 1 ==> sleader == null)
    && (|q| > 1 ==> sleader == q[1] && LeadsAfresh(q[1..], all))
  }

  ghost predicate LeadsAfresh(q: seq<Node>, all: set<Node>)
    reads all
  {
    && q != [] && q[0] in all && q[0].sleader && Ready(q, 0, all) && LeadsOn(q, 0, all)
    && (Unsafe(q, 0) <==> |q| > 2 && q[0].nid != 1 && q[1].nid == 1)
  }

  method PassOn(c: Call, node: Node) returns (sleader: Node?)
    requires Called(c, node)
    modifies c.all`sleader, c.all`lastVisited
    ensures PassesOn(c.q, sleader, c.all) && sleader != node
    ensures node.sleader == old(node.sleader)
    ensures forall n :: n in c.all && n != sleader ==> n.lastVisited == old(n.lastVisited)
  {
    sleader := node.next;
    assert c.q[0].next == sleader;
    if sleader != null {
      SetSleader(sleader, null);
      NextLeads(c.q, c.all);
      ReadyLeadsOn(c.q[1..], 0, c.all);
    }
  }

  /** Up to the loop, or the limit. */
  method Begin(c: Call, node: Node) returns (prev: Node)
    requires Called(c, node)
    modifies node`wcount, node`sleader
    ensures !Unsafe(c.q + c.arrivals, c.p) ==> Starts(c, node, prev)
    ensures Called(c, node)
    ensures node.wcount == (if old(node.wcount) == 0 then 1 else old(node.wcount)) && !node.sleader
  {
    prev := if node.lastVisited == null then node else node.lastVisited;
    if node.wcount == 0 {
      node.wcount := 1;
    }
    node.sleader := false;
    assert Called(c, node);
    CallStarts(c, node, prev);
  }

  lemma CallStarts(c: Call, node: Node, prev: Node)
    requires Called(c, node) && prev == if node.lastVisited == null then node else node.lastVisited
    ensures !Unsafe(c.q + c.arrivals, c.p) ==> Starts(c, node, prev)
  {
    NothingMoved(c.q, c.p);
    NeverLedFrom(c.q, c.arrivals, c.p, c.all);
    if !Unsafe(c.q + c.arrivals, c.p) {
      SafeSoFar(c.q, c.arrivals, c.p);
    }
  }

  /** What a call finds: a leader that is ready, and threads to come. */
  ghost predicate Called(c: Call, node: Node)
    reads c.all
  {
    && Ready(c.q, c.p, c.all) && c.q[0] == node && c.end == c.q[|c.q| - 1] && node in c.all
    && c.start == (if node.wcount == 0 then 1 else node.wcount)
    && Coming(c, 0) && NeverLed(c.q + c.arrivals, 1, c.all)
  }

  /** A call below the limit. */
  method LeadOn(c: Call, node: Node) returns (sleader: Node, n: nat, ghost w: View)
    requires Called(c, node) && !Unsafe(c.q + c.arrivals, c.p)
    modifies c.all
    ensures HandsOn(c, n, w, node, sleader) && (sleader != node ==> !node.sleader)
    ensures forall x :: x in c.all && x != sleader ==> x.lastVisited == old(x.lastVisited)
    ensures sleader != node ==> sleader.wcount == (c.start + w.l) % 0x1_0000
  {
    var prev := Begin(c, node);
    sleader, n, w := RunPass(c, node, prev);
  }

  /** A call past the limit. */
  method LeadNoMore(c: Call, node: Node) returns (sleader: Node?)
    requires Called(c, node)
    modifies c.all
    ensures PassesOn(c.q, sleader, c.all) && sleader != node && !node.sleader
    ensures forall x :: x in c.all && x != sleader ==> x.lastVisited == old(x.lastVisited)
  {
    var prev := Begin(c, node);
    sleader := PassOn(c, node);
  }

  /** One call: a pass by the leader node, unless it moved enough already, and the appointment of
      the next leader. */
  method ShuffleWaiters(c: Call, node: Node) returns (sleader: Node?, n: nat, ghost w: View)
    requires Called(c, node) && (node.wcount < MAX_LOCK_COUNT ==> !Unsafe(c.q + c.arrivals, c.p))
    modifies c.all
    ensures sleader != node ==> !node.sleader
    ensures forall x :: x in c.all && x != sleader ==> x.lastVisited == old(x.lastVisited)
    ensures old(node.wcount) < MAX_LOCK_COUNT ==> HandsOn(c, n, w, node, sleader)
    ensures old(node.wcount) < MAX_LOCK_COUNT && sleader != node ==> sleader.wcount == (c.start + w.l) % 0x1_0000
    ensures old(node.wcount) >= MAX_LOCK_COUNT ==> PassesOn(c.q, sleader, c.all)
  {
    if node.wcount >= MAX_LOCK_COUNT {
      n, w := 0, View(c.q, 0, c.p);
      sleader := LeadNoMore(c, node);
    } else {
      sleader, n, w := LeadOn(c, node);
    }
  }

  lemma NeverLedFrom(q: seq<Node>, arrivals: seq<Node>, p: nat, all: set<Node>)
    requires q != [] && NeverLed(q + arrivals, 1, all) && (p == 0 ==> q[0].lastVisited == null)
    ensures NeverLed(q + arrivals, if p == 0 then 0 else 1, all)
  {
  }

  lemma SafeSoFar(q: seq<Node>, arrivals: seq<Node>, p: nat)
    requires !Unsafe(q + arrivals, p)
    ensures !Unsafe(q, p)
  {
  }

  lemma NextLeads(q: seq<Node>, all: set<Node>)
    requires |q| > 1 && Distinct(q) && Chain(q, all) && q[1].lastVisited == null
    ensures Ready(q[1..], 0, all)
  {
    RestIsChain(q, 1, all);
  }

  /** The excluded start: the leader relinks the ux thread behind it without moving prev, so a
      second turn of the loop visits that thread again and links it to itself. */
  method UnsafeStart(node: Node, released: bool, ghost q: seq<Node>, ghost all: set<Node>) returns (at: Locals)
    requires Distinct(q) && Chain(q, all) && Unsafe(q, 0) && q[0] == node
    modifies all`next, all`wcount
    ensures at.last == q[1] && at.prev == node
    ensures released ==> Chain(q, all)
    ensures !released ==> q[1].next == q[1] && Chain([node] + q[2..], all)
  {
    assert q[0].next == q[1] && q[1].next == q[2];
    var curr := node.next;
    var more;
    more, at := LoopBody(Locals(node, node, 1), curr);
    assert forall i :: 0 <= i < |q| ==> q[i].next == old(q[i].next);
    if !released {
      curr := at.prev.next;
      more, at := LoopBody(at, curr);
      ghost var rest := [node] + q[2..];
      forall i {:trigger rest[i].next} | 0 <= i < |rest|
        ensures rest[i].next == if i + 1 < |rest| then rest[i + 1] else null
      {
        assert i > 0 ==> rest[i] == q[i + 1] && q[i + 1].next == old(q[i + 1].next);
      }
    }
  }
}
