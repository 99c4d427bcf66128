/** uxshfl.c in every interleaving of its threads and of their shuffles. */
module ShflTheorems {
  import opened TwoQueue
  import opened ShflQueue
  import opened ShflLeaders

  // ----- Runs --------------------------------------------------------------------------

  ghost predicate Begins(m: Machine) {
    Init(m.lock) && |m.marks| == |m.lock.th| && forall t: nat :: Named(m, t) ==> m.marks[t].turn == None
  }

  ghost predicate PerformsAt(ms: seq<Machine>, acts: seq<Action>, i: nat)
    requires i < |acts| && |ms| == |acts| + 1
  {
    May(ms[i], acts[i]) && ms[i + 1] == Perform(ms[i], acts[i])
  }

  ghost predicate IsShuffledRun(ms: seq<Machine>, acts: seq<Action>) {
    && |ms| == |acts| + 1 && Begins(ms[0])
    && forall i: nat :: i < |acts| ==> PerformsAt(ms, acts, i)
  }

  /** No turn before step n went wrong, and there are not so many threads that the counter wraps. */
  ghost predicate GoesWell(ms: seq<Machine>, acts: seq<Action>, n: nat)
    requires IsShuffledRun(ms, acts) && n < |ms|
  {
    Few(ms[0]) && forall i: nat :: i < n ==> !BadAt(ms, acts, i)
  }

  predicate BadAt(ms: seq<Machine>, acts: seq<Action>, i: nat)
    requires i < |acts| < |ms|
  {
    Bad(ms[i], acts[i])
  }

  /** The order in which those in the queue came, from the exchanges of tail alone. */
  ghost function Came(ms: seq<Machine>, acts: seq<Action>, i: nat): seq<nat>
    requires IsShuffledRun(ms, acts) && i < |ms|
  {
    if i == 0 then [] else CameAfter(ms[i - 1], acts[i - 1], Came(ms, acts, i - 1))
  }

  function CameAfter(m: Machine, a: Action, came: seq<nat>): seq<nat> {
    if a.Base? then ArrivedAfter(m.lock, a.a, came) else came
  }

  /** The order in which they stand, as the turns have made it. */
  ghost function Line(ms: seq<Machine>, acts: seq<Action>, i: nat): seq<nat>
    requires IsShuffledRun(ms, acts) && i < |ms|
  {
    if i == 0 then [] else LineAfter(ms[i - 1], acts[i - 1], Line(ms, acts, i - 1))
  }

  /** Whether stealing was last disabled while somebody was about to enable it. */
  ghost function RacedIn(ms: seq<Machine>, acts: seq<Action>, i: nat): bool
    requires IsShuffledRun(ms, acts) && i < |ms|
  {
    i > 0 && RacedAfter(ms[i - 1], acts[i - 1], RacedIn(ms, acts, i - 1))
  }

  ghost function RacedAfter(m: Machine, a: Action, raced: bool): bool {
    if a.Base? then Raced(m.lock, a.a, raced) else raced
  }

  ghost predicate Fits(m: Machine, q: seq<nat>, came: seq<nat>, raced: bool) {
    Inv(m.lock, q, raced) && Promoted(m.lock, came, q) && OpenWhenEmpty(m.lock, q) && HasBaton(m, q)
  }

  lemma StepKeepsFits(m: Machine, a: Action, q: seq<nat>, came: seq<nat>, raced: bool)
    requires Fits(m, q, came, raced) && May(m, a) && !Bad(m, a) && Few(m)
    ensures Fits(Perform(m, a), LineAfter(m, a, q), CameAfter(m, a, came), RacedAfter(m, a, raced))
  {
    var k: nat, at: nat, v: nat :| Baton(m, q, k, at, v);
    var b := StepKeepsBaton(m, a, q, k, at, v);
    if b.Some? {
      assert Informed(m.lock, b.value.t);
      StepKeepsInv(m.lock, b.value, q, raced);
      StepKeepsPromoted(m.lock, b.value, q, came);
      StepKeepsOpen(m.lock, b.value, q, raced);
    }
  }

  lemma SameThreadsAfter(m: Machine, a: Action)
    requires May(m, a)
    ensures |Perform(m, a).lock.th| == |m.lock.th|
  {
  }

  lemma {:induction false} SameThreads(ms: seq<Machine>, acts: seq<Action>, i: nat)
    requires IsShuffledRun(ms, acts) && i < |ms|
    ensures |ms[i].lock.th| == |ms[0].lock.th|
  {
    if i > 0 {
      SameThreads(ms, acts, i - 1);
      assert PerformsAt(ms, acts, i - 1);
      SameThreadsAfter(ms[i - 1], acts[i - 1]);
    }
  }

  lemma {:induction false} AlwaysFits(ms: seq<Machine>, acts: seq<Action>, i: nat)
    requires IsShuffledRun(ms, acts) && i < |ms| && GoesWell(ms, acts, i)
    ensures Fits(ms[i], Line(ms, acts, i), Came(ms, acts, i), RacedIn(ms, acts, i)) && Few(ms[i])
  {
    SameThreads(ms, acts, i);
    if i == 0 {
      BeginsFit(ms[0]);
    } else {
      AlwaysFits(ms, acts, i - 1);
      assert PerformsAt(ms, acts, i - 1) && !BadAt(ms, acts, i - 1);
      StepKeepsFits(ms[i - 1], acts[i - 1], Line(ms, acts, i - 1), Came(ms, acts, i - 1), RacedIn(ms, acts, i - 1));
    }
  }

  lemma BeginsFit(m: Machine)
    requires Begins(m)
    ensures Fits(m, [], [], false)
  {
    forall t: nat ensures Outside(m.lock, t) && Informed(m.lock, t) && !Holds(m.lock, t) && Apart(m, t) {
      assert Names(m.lock, t) ==> At(m.lock, t, Out);
    }
    assert Baton(m, [], 0, 0, 0);
  }

  /** Shuffling, call by call and with what each leader remembers, is safe as long as no turn goes
      wrong: the list in memory holds everybody who came and has not left, once, and only ux threads
      stand before earlier arrivals, and only before non-ux ones. */
  lemma ShufflingIsSafe(ms: seq<Machine>, acts: seq<Action>, i: nat)
    requires IsShuffledRun(ms, acts) && i < |ms| && GoesWell(ms, acts, i)
    ensures Shape(ms[i].lock, Line(ms, acts, i)) && |Line(ms, acts, i)| == |Came(ms, acts, i)|
    ensures Promoted(ms[i].lock, Came(ms, acts, i), Line(ms, acts, i))
  {
    AlwaysFits(ms, acts, i);
    SameSize(Came(ms, acts, i), Line(ms, acts, i));
  }

  /** Who spins on the byte, takes it from the queue, or hands the first place on, is the first. */
  lemma HeadIsFirst(ms: seq<Machine>, acts: seq<Action>, i: nat, t: nat)
    requires IsShuffledRun(ms, acts) && i < |ms| && GoesWell(ms, acts, i)
    requires At(ms[i].lock, t, Heading) || At(ms[i].lock, t, Taken) || (i < |acts| && LeavesAt(ms, acts, i, t))
    ensures Line(ms, acts, i) != [] && Line(ms, acts, i)[0] == t
  {
    AlwaysFits(ms, acts, i);
    if i < |acts| && LeavesAt(ms, acts, i, t) {
      assert PerformsAt(ms, acts, i) && Informed(ms[i].lock, t);
      LeaveKeepsShape(ms[i].lock, acts[i].a, Line(ms, acts, i));
    } else {
      var n := PlaceOf(ms[i].lock, Line(ms, acts, i), t);
    }
  }

  /** Step i is thread t leaving the queue. */
  predicate LeavesAt(ms: seq<Machine>, acts: seq<Action>, i: nat, t: nat)
    requires i < |acts| < |ms|
  {
    acts[i].Base? && Leaves(ms[i].lock, acts[i].a) && acts[i].a.t == t
  }

  /** The first stays first until it leaves, however much is shuffled. */
  lemma FirstStaysFirst(ms: seq<Machine>, acts: seq<Action>, i: nat)
    requires IsShuffledRun(ms, acts) && i < |acts| && Line(ms, acts, i) != []
    requires !LeavesAt(ms, acts, i, Line(ms, acts, i)[0]) && GoesWell(ms, acts, i)
    ensures Line(ms, acts, i + 1) != [] && Line(ms, acts, i + 1)[0] == Line(ms, acts, i)[0]
  {
    AlwaysFits(ms, acts, i);
    assert PerformsAt(ms, acts, i);
    var q := Line(ms, acts, i);
    if acts[i].Base? && Leaves(ms[i].lock, acts[i].a) {
      HeadIsFirst(ms, acts, i, acts[i].a.t);
    }
  }

  /** So each class is served in the order in which it came: when a thread heads the queue, or has
      taken the lock from it, every earlier arrival still queued is a non-ux thread, and it is a ux
      thread itself if there is one. */
  lemma ServedInClassOrder(ms: seq<Machine>, acts: seq<Action>, i: nat, x: nat, t: nat)
    requires IsShuffledRun(ms, acts) && i < |ms| && GoesWell(ms, acts, i)
    requires At(ms[i].lock, t, Heading) || At(ms[i].lock, t, Taken)
    requires Before(Came(ms, acts, i), x, t)
    ensures IsUx(ms[i].lock, t) && !IsUx(ms[i].lock, x)
  {
    HeadIsFirst(ms, acts, i, t);
    AlwaysFits(ms, acts, i);
    var q, came := Line(ms, acts, i), Came(ms, acts, i);
    assert x in came && x in q;
    var j :| 0 <= j < |q| && q[j] == x;
    assert Passed(came, q, x, t);
  }

  /** Whether a newcomer may steal from a queue in use, with the turns as they are. */
  lemma StealingIffRaced(ms: seq<Machine>, acts: seq<Action>, i: nat)
    requires IsShuffledRun(ms, acts) && i < |ms| && GoesWell(ms, acts, i)
    requires Announced(ms[i].lock, Line(ms, acts, i))
    ensures ms[i].lock.stealing <==> RacedIn(ms, acts, i) && !Pending(ms[i].lock)
  {
    AlwaysFits(ms, acts, i);
  }

  // ----- Mutual exclusion --------------------------------------------------------------------

  lemma StepKeepsExclusion(m: Machine, a: Action)
    requires Exclusive(m.lock) && May(m, a)
    ensures Exclusive(Perform(m, a).lock)
  {
    match a
    case Base(b) => StepKeepsExclusive(m.lock, b);
    case Visit(t) =>
      VisitDoes(m, t);
      if Relinks(m, t) {
        RelinkKeepsThreads(m, t);
        KeepsHolders(m.lock, Perform(m, a).lock);
      }
    case _ =>
  }

  lemma KeepsHolders(s: State, s': State)
    requires Exclusive(s) && KeepsThreads(s, s') && s'.locked == s.locked
    ensures Exclusive(s')
  {
    forall t: nat ensures Holds(s', t) == Holds(s, t) {
      assert Names(s, t) ==> SameBut(s, s', t);
    }
    if s.locked {
      var h: nat :| OnlyHolder(s, h);
      assert OnlyHolder(s', h);
    }
  }

  lemma {:induction false} AlwaysExclusive(ms: seq<Machine>, acts: seq<Action>, i: nat)
    requires IsShuffledRun(ms, acts) && i < |ms|
    ensures Exclusive(ms[i].lock)
  {
    if i == 0 {
      forall t: nat ensures !Holds(ms[0].lock, t) {
        assert Names(ms[0].lock, t) ==> At(ms[0].lock, t, Out);
      }
    } else {
      AlwaysExclusive(ms, acts, i - 1);
      assert PerformsAt(ms, acts, i - 1);
      StepKeepsExclusion(ms[i - 1], acts[i - 1]);
    }
  }

  /** At most one thread has the lock, whatever a turn has done to the list: even a turn that goes
      wrong. */
  lemma MutualExclusion(ms: seq<Machine>, acts: seq<Action>, i: nat, t: nat, u: nat)
    requires IsShuffledRun(ms, acts) && i < |ms| && Holds(ms[i].lock, t) && Holds(ms[i].lock, u)
    ensures t == u && ms[i].lock.locked
  {
    AlwaysExclusive(ms, acts, i);
  }

  // ----- One leader ------------------------------------------------------------------------

  /** A thread in the queue that leads, or may begin a turn. */
  predicate MayLead(m: Machine, t: nat) {
    InTurn(m, t) || May(m, Begin(t))
  }

  /** At most one thread is in a turn or may begin one, so turns never overlap. */
  lemma OneLeads(ms: seq<Machine>, acts: seq<Action>, i: nat, t: nat, u: nat)
    requires IsShuffledRun(ms, acts) && i < |ms| && GoesWell(ms, acts, i)
    requires MayLead(ms[i], t) && MayLead(ms[i], u)
    ensures t == u
  {
    AlwaysFits(ms, acts, i);
    var q := Line(ms, acts, i);
    var k: nat, at: nat, v: nat :| Baton(ms[i], q, k, at, v);
    var x := LeaderIs(ms[i], t, q, k, at, v);
    var y := LeaderIs(ms[i], u, q, k, at, v);
  }

  lemma {:induction false} LeaderIs(m: Machine, t: nat, q: seq<nat>, k: nat, at: nat, v: nat) returns (i: nat)
    requires Shape(m.lock, q) && Baton(m, q, k, at, v) && MayLead(m, t)
    ensures i < |q| && q[i] == t && (i == at || (i == 0 && at == |q|))
  {
    if InTurn(m, t) {
      InTurnLeads(m, t, q, k, at, v);
      i := at;
    } else {
      i := BeginIsLeader(m, t, q, k, at, v);
    }
  }

  /** The turn goes wrong exactly when the leader is not a ux thread, has passed nobody and moved
      nobody, and the thread behind it is a ux thread with a successor. */
  lemma BadIff(ms: seq<Machine>, acts: seq<Action>, i: nat, t: nat)
    requires IsShuffledRun(ms, acts) && i < |ms| && GoesWell(ms, acts, i) && May(ms[i], Visit(t))
    ensures var s, p := ms[i].lock, ms[i].marks[t].turn.value;
      Bad(ms[i], Visit(t)) <==>
        && !s.th[t].ux && p.prev == t && s.th[t].next == p.curr
        && s.th[p.curr.value].ux && s.th[p.curr.value].next.Some?
  {
    AlwaysFits(ms, acts, i);
    var q := Line(ms, acts, i);
    var k: nat, at: nat, v: nat :| Baton(ms[i], q, k, at, v);
    InTurnLeads(ms[i], t, q, k, at, v);
    LinkIs(ms[i].lock, q, v);
    assert v + 2 == |q| ==> ms[i].lock.tail == Some(q[v + 1]);
    LinkIs(ms[i].lock, q, v + 1);
    assert k - 1 > at ==> WaitsAs(ms[i].lock, q[k - 1], true);
    assert q[k - 1] == q[v] ==> k - 1 == v;
  }

  // ----- Why the three stores can be one step ----------------------------------------------

  /** The threads whose links a turn stores to. */
  function StoredTo(m: Machine, t: nat): set<nat>
    requires May(m, Visit(t))
  {
    var p := m.marks[t].turn.value;
    {p.last, p.prev, p.curr.value}
  }

  /** s' is s but for the links of some threads, which may be any. */
  ghost predicate HalfDone(s: State, s': State, xs: set<nat>) {
    && s' == s.(th := s'.th) && |s'.th| == |s.th|
    && forall x: nat :: HalfAt(s, s', xs, x)
  }

  predicate HalfAt(s: State, s': State, xs: set<nat>, x: nat) {
    Names(s, x) && Names(s', x) ==> SameBut(s, s', x) && (x in xs || s'.th[x] == s.th[x])
  }

  /** The links of these threads are as they were. */
  ghost predicate KeepsLinks(s: State, s': State, xs: set<nat>) {
    |s'.th| == |s.th| && forall x: nat :: x in xs && Names(s, x) ==> s'.th[x].next == s.th[x].next
  }

  /** The step neither reads nor writes these links. */
  predicate Ignores(s: State, b: Label, xs: set<nat>) {
    Enabled(s, b) ==>
      && !b.Move?
      && (b.Read? || b.Expect? || b.Steal? ==> b.t !in xs)
      && (b.Link? ==> s.th[b.t].pc.pred !in xs)
  }

  lemma StaysEnabled(s: State, s': State, b: Label, xs: set<nat>)
    requires HalfDone(s, s', xs) && Ignores(s, b, xs) && Enabled(s, b)
    ensures Enabled(s', b) && Ignores(s', b, xs)
    ensures s'.th[b.t].pc == s.th[b.t].pc && (b.Read? || b.Expect? ==> s'.th[b.t] == s.th[b.t])
  {
    assert HalfAt(s, s', xs, b.t);
  }

  lemma LinksStay(s: State, b: Label, xs: set<nat>)
    requires Ignores(s, b, xs) && Enabled(s, b)
    ensures KeepsLinks(s, Do(s, b), xs)
  {
  }

  ghost predicate Half(s: State, s': State, b: Label, xs: set<nat>, x: nat) {
    && s' == s.(th := s'.th) && |s'.th| == |s.th| && HalfAt(s, s', xs, x) && HalfAt(s, s', xs, b.t)
    && Ignores(s, b, xs) && Enabled(s, b) && Enabled(s', b)
  }

  lemma IgnoredLink(s: State, s': State, b: Label, xs: set<nat>, x: nat)
    requires Half(s, s', b, xs, x)
    ensures HalfAt(Do(s, b), Do(s', b), xs, x)
  {
    if b.Link? || b.Pass? {
      IgnoredByTwo(s, s', b, xs, x);
    } else {
      IgnoredByOne(s, s', b, xs, x);
    }
  }

  lemma IgnoredByTwo(s: State, s': State, b: Label, xs: set<nat>, x: nat)
    requires Half(s, s', b, xs, x) && (b.Link? || b.Pass?)
    ensures HalfAt(Do(s, b), Do(s', b), xs, x)
  {
  }

  lemma IgnoredByOne(s: State, s': State, b: Label, xs: set<nat>, x: nat)
    requires Half(s, s', b, xs, x) && !b.Link? && !b.Pass?
    ensures HalfAt(Do(s, b), Do(s', b), xs, x)
  {
  }

  lemma IgnoredLinks(s: State, s': State, b: Label, xs: set<nat>)
    requires HalfDone(s, s', xs) && Ignores(s, b, xs) && Enabled(s, b)
    ensures Enabled(s', b) && HalfDone(Do(s, b), Do(s', b), xs)
    ensures KeepsLinks(s, Do(s, b), xs) && KeepsLinks(s', Do(s', b), xs)
  {
    StaysEnabled(s, s', b, xs);
    LinksStay(s, b, xs);
    LinksStay(s', b, xs);
    forall x: nat ensures HalfAt(Do(s, b), Do(s', b), xs, x) {
      assert HalfAt(s, s', xs, x) && HalfAt(s, s', xs, b.t);
      IgnoredLink(s, s', b, xs, x);
    }
  }

  /** While a turn relinks, no step of another thread reads or writes the links it stores to: such a
      step has the same effect between the stores as before them, and leaves them alone. */
  lemma StoresAreUnseen(ms: seq<Machine>, acts: seq<Action>, i: nat, t: nat, s: State, b: Label)
    requires IsShuffledRun(ms, acts) && i < |ms| && GoesWell(ms, acts, i)
    requires May(ms[i], Visit(t)) && Relinks(ms[i], t) && !Bad(ms[i], Visit(t))
    requires HalfDone(ms[i].lock, s, StoredTo(ms[i], t)) && May(ms[i], Base(b))
    ensures Enabled(s, b) && HalfDone(Do(ms[i].lock, b), Do(s, b), StoredTo(ms[i], t))
    ensures KeepsLinks(ms[i].lock, Do(ms[i].lock, b), StoredTo(ms[i], t)) && KeepsLinks(s, Do(s, b), StoredTo(ms[i], t))
  {
    AlwaysFits(ms, acts, i);
    var q := Line(ms, acts, i);
    var k: nat, at: nat, v: nat :| Baton(ms[i], q, k, at, v);
    StoredAreIgnored(ms[i], t, b, q, k, at, v);
    IgnoredLinks(ms[i].lock, s, b, StoredTo(ms[i], t));
  }

  /** The three threads stand at or behind the leader and have links already, */
  lemma StoredAreLater(m: Machine, t: nat, q: seq<nat>, k: nat, at: nat, v: nat, x: nat) returns (j: nat)
    requires Shape(m.lock, q) && Baton(m, q, k, at, v) && May(m, Visit(t)) && Relinks(m, t) && !Bad(m, Visit(t))
    requires x in StoredTo(m, t)
    ensures at <= j < |q| && q[j] == x && (j == at ==> x == t)
    ensures Names(m.lock, x) && m.lock.th[x].next.Some?
  {
    InTurnLeads(m, t, q, k, at, v);
    RelinkIsEnabled(m, t, q, k, at, v);
    j := if x == q[k - 1] then k - 1 else if x == q[v] then v else v + 1;
    assert LinkedAt(m.lock, MoveOf(q, k, at, v).list, j - at);
  }

  /** so the first of the queue, if it is on its way out, is none of them, and no arrival is about to
      store one of their links. */
  lemma StoredAreIgnored(m: Machine, t: nat, b: Label, q: seq<nat>, k: nat, at: nat, v: nat)
    requires Shape(m.lock, q) && Baton(m, q, k, at, v) && May(m, Visit(t)) && Relinks(m, t) && !Bad(m, Visit(t))
    requires May(m, Base(b))
    ensures Ignores(m.lock, b, StoredTo(m, t))
  {
    var n := PlaceOf(m.lock, q, b.t);
    if b.t in StoredTo(m, t) {
      var j := StoredAreLater(m, t, q, k, at, v, b.t);
      assert b.t != t && n > 0;
    }
    if b.Link? && m.lock.th[b.t].pc.pred in StoredTo(m, t) {
      var j := StoredAreLater(m, t, q, k, at, v, m.lock.th[b.t].pc.pred);
    }
  }
}
