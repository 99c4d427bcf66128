/** Every step of FineLock keeps the memory related to the queue discipline. */
module FineLockProof {
  import opened TwoQueue
  import opened Uta
  import opened FineLock

  function IndexOf(ws: seq<Waiter<Tid>>, t: Tid): (i: nat)
    ensures i <= |ws|
    ensures i < |ws| ==> ws[i].who == t
    ensures forall j :: 0 <= j < i ==> ws[j].who != t
  {
    if ws == [] || ws[0].who == t then 0 else 1 + IndexOf(ws[1..], t)
  }

  lemma IndexIs(a: Abs, k: nat)
    requires a.Held? && DistinctIds(All(a)) && k < |a.q.main|
    ensures IndexOf(a.q.main, a.q.main[k].who) == k
  {
    Apart(a);
  }

  function HandOver(a: Abs, c: Choice, batch: nat): Abs
    requires a.Held? && Allowed(a.q, c)
  {
    Held(Granted(a.q, c), After(a.q, c), batch)
  }

  /** The queue step a machine step stands for; most stand for none. */
  function Effect(m: Memory, t: Tid, l: Label, a: Abs): Abs
    requires Enabled(m, t, l)
  {
    match l
    case Exchange =>
      var w := Waiter(t, At(m, t).len);
      (match a
       case Free => Held(w, Queue([], []), 0)
       case Held(o, q, b) => Held(o, q.(main := q.main + [w]), b))
    case Cas =>
      if a.Free? || m.tail != Some(t) then a
      else if a.q.Order() == [] then Free
      else HandOver(a, Oldest, 1)
    case PickCur(b, _) =>
      if a.Held? && IndexOf(a.q.main, At(m, t).pc.cur) < |a.q.main|
      then HandOver(a, Pick(IndexOf(a.q.main, At(m, t).pc.cur)), b) else a
    case PickBest(b, _) =>
      if a.Held? && IndexOf(a.q.main, At(m, t).pc.best.value.0) < |a.q.main|
      then HandOver(a, Pick(IndexOf(a.q.main, At(m, t).pc.best.value.0)), b) else a
    case Flush(b, _) => if a.Held? && a.q.Order() != [] then HandOver(a, Oldest, b) else a
    case _ => a
  }

  lemma MembersOf(a: Abs)
    requires a.Held?
    ensures Member(a, a.owner.who)
    ensures forall i :: 0 <= i < |a.q.sec| ==> Member(a, a.q.sec[i].who)
    ensures forall i :: 0 <= i < |a.q.main| ==> Member(a, a.q.main[i].who)
    ensures forall t :: Member(a, t) <==>
      || t == a.owner.who
      || (exists i :: 0 <= i < |a.q.sec| && a.q.sec[i].who == t)
      || (exists i :: 0 <= i < |a.q.main| && a.q.main[i].who == t)
  {
    assert All(a)[0] == a.owner;
    assert forall i :: 0 <= i < |a.q.sec| ==> All(a)[1 + i] == a.q.sec[i];
    assert forall i :: 0 <= i < |a.q.main| ==> All(a)[1 + |a.q.sec| + i] == a.q.main[i];
    forall t | Member(a, t)
      ensures t == a.owner.who
           || (exists i :: 0 <= i < |a.q.sec| && a.q.sec[i].who == t)
           || (exists i :: 0 <= i < |a.q.main| && a.q.main[i].who == t)
    {
      var i :| 0 <= i < |All(a)| && All(a)[i].who == t;
      if 1 <= i <= |a.q.sec| {
        assert a.q.sec[i - 1].who == t;
      } else if i > 0 {
        assert a.q.main[i - 1 - |a.q.sec|].who == t;
      }
    }
  }

  /** Distinctness, split by queue so that no index arithmetic is needed later. */
  lemma Apart(a: Abs)
    requires a.Held? && DistinctIds(All(a))
    ensures forall i :: 0 <= i < |a.q.sec| ==> a.q.sec[i].who != a.owner.who
    ensures forall i :: 0 <= i < |a.q.main| ==> a.q.main[i].who != a.owner.who
    ensures forall i, j :: 0 <= i < j < |a.q.sec| ==> a.q.sec[i].who != a.q.sec[j].who
    ensures forall i, j :: 0 <= i < j < |a.q.main| ==> a.q.main[i].who != a.q.main[j].who
    ensures forall i, j :: 0 <= i < |a.q.sec| && 0 <= j < |a.q.main| ==>
      a.q.sec[i].who != a.q.main[j].who
  {
    var all := All(a);
    assert all[0] == a.owner;
    assert forall i :: 0 <= i < |a.q.sec| ==> all[1 + i] == a.q.sec[i];
    assert forall i :: 0 <= i < |a.q.main| ==> all[1 + |a.q.sec| + i] == a.q.main[i];
  }

  /** Waiters are waiting or about to link; they hold no word. */
  lemma WaitersWait(m: Memory, a: Abs, t: Tid)
    requires Related(m, a) && a.Held? && Member(a, t) && t != a.owner.who
    ensures At(m, t).pc.Waiting? || At(m, t).pc.Linking?
    ensures At(m, t).spin.Zero?
  {
    MembersOf(a);
    if i :| 0 <= i < |a.q.sec| && a.q.sec[i].who == t {
      assert SecNode(m, a, i);
    } else {
      var i: nat :| i < |a.q.main| && a.q.main[i].who == t;
      assert MainNode(m, a, i);
    }
  }

  /** Whoever is inside or releasing is the owner. */
  lemma ReleaserOwns(m: Memory, a: Abs, t: Tid)
    requires Related(m, a) && Releasing(At(m, t).pc)
    ensures a.Held? && t == a.owner.who && WordFits(a, At(m, t).spin)
    ensures forall g :: !At(m, g).pc.Granting?
  {
    assert Member(a, t);
    if t != a.owner.who {
      WaitersWait(m, a, t);
    }
  }

  // ----- Frames ------------------------------------------------------------------------

  /** The waiters' nodes and the owner's next are as before. */
  ghost predicate QueueSame(m: Memory, m': Memory, a: Abs)
    requires a.Held?
  {
    && m'.tail == m.tail
    && At(m', a.owner.who).next == At(m, a.owner.who).next
    && forall t :: Member(a, t) && t != a.owner.who ==> At(m', t) == At(m, t)
  }

  lemma QueueFrame(m: Memory, m': Memory, a: Abs)
    requires Related(m, a) && a.Held? && QueueSame(m, m', a)
    ensures MainShape(m', a) && SecShape(m', a)
  {
    forall i | 0 <= i < |a.q.main| ensures MainNode(m', a, i) {
      MainFrame(m, m', a, i);
    }
    forall i | 0 <= i < |a.q.sec| ensures SecNode(m', a, i) {
      SecFrame(m, m', a, i);
    }
    EndsFrame(m, m', a);
  }

  lemma MainFrame(m: Memory, m': Memory, a: Abs, i: nat)
    requires Related(m, a) && a.Held? && QueueSame(m, m', a) && i < |a.q.main|
    ensures MainNode(m', a, i)
  {
    MembersOf(a);
    Apart(a);
    assert MainNode(m, a, i);
  }

  lemma SecFrame(m: Memory, m': Memory, a: Abs, i: nat)
    requires Related(m, a) && a.Held? && QueueSame(m, m', a) && i < |a.q.sec|
    ensures SecNode(m', a, i)
  {
    MembersOf(a);
    Apart(a);
    assert SecNode(m, a, i);
  }

  lemma EndsFrame(m: Memory, m': Memory, a: Abs)
    requires Related(m, a) && a.Held? && QueueSame(m, m', a)
    ensures At(m', Before(a, |a.q.main|)).next == None && m'.tail == Some(Before(a, |a.q.main|))
    ensures a.q.sec != [] ==> At(m', a.q.sec[0].who).secTail == Some(a.q.sec[|a.q.sec| - 1].who)
  {
    MembersOf(a);
    Apart(a);
  }

  lemma LensFrame(m: Memory, m': Memory, a: Abs)
    requires LensFit(m, a)
    requires forall t :: Member(a, t) ==> At(m', t).len == At(m, t).len
    ensures LensFit(m', a)
  {
    forall i | 0 <= i < |All(a)| ensures At(m', All(a)[i].who).len == All(a)[i].len {
      assert Member(a, All(a)[i].who);
    }
  }

  /** Scanned nodes stay linked as long as links are only added. */
  lemma ScanFrame(m: Memory, m': Memory, a: Abs, k: nat, cur: Tid)
    requires a.Held? && ScannedTo(m, a, k, cur)
    requires forall i :: 0 <= i < |a.q.main| && LinkedAt(m, a, i) ==> LinkedAt(m', a, i)
    ensures ScannedTo(m', a, k, cur)
  {
    forall i | 0 <= i <= k ensures LinkedAt(m', a, i) {
      assert LinkedAt(m, a, i);
    }
  }

  lemma ScanShapeFrame(m: Memory, m': Memory, a: Abs)
    requires a.Held? && ScanShape(m, a) && At(m', a.owner.who).pc == At(m, a.owner.who).pc
    requires forall i :: 0 <= i < |a.q.main| && LinkedAt(m, a, i) ==> LinkedAt(m', a, i)
    ensures ScanShape(m', a)
  {
    match At(m, a.owner.who).pc
    case Scan(cur, last, best) =>
      var k: nat :| ScannedTo(m, a, k, cur) && last == Before(a, k) && Candidate(a, k, best);
      ScanFrame(m, m', a, k, cur);
    case Missed(cur, best) =>
      var k: nat :| ScannedTo(m, a, k, cur) && Candidate(a, k, best);
      ScanFrame(m, m', a, k, cur);
    case _ =>
  }

  lemma LinksSame(m: Memory, m': Memory, a: Abs)
    requires a.Held? && DistinctIds(All(a)) && QueueSame(m, m', a)
    ensures forall i :: 0 <= i < |a.q.main| && LinkedAt(m, a, i) ==> LinkedAt(m', a, i)
  {
    MembersOf(a);
    Apart(a);
  }

  // ----- Steps that only move one thread -----------------------------------------------

  lemma EnterKeeps(m: Memory, t: Tid, len: int, a: Abs)
    requires Related(m, a) && Enabled(m, t, Enter(len))
    ensures Related(Do(m, t, Enter(len)), a)
  {
    var m' := Do(m, t, Enter(len));
    assert forall x :: x != t ==> At(m', x) == At(m, x);
    if a.Held? {
      if Member(a, t) && t != a.owner.who { WaitersWait(m, a, t); }
      QueueFrame(m, m', a);
      LensFrame(m, m', a);
      LinksSame(m, m', a);
      ScanShapeFrame(m, m', a);
    }
  }

  /** The owner moves on without touching anything but its own program counter. */
  lemma OwnerMoves(m: Memory, t: Tid, pc: Pc, a: Abs)
    requires Related(m, a) && Releasing(At(m, t).pc) && Releasing(pc)
    requires a.Held? ==> ScanShape(SetPc(m, t, pc), a)
    ensures Related(SetPc(m, t, pc), a)
  {
    var m' := SetPc(m, t, pc);
    ReleaserOwns(m, a, t);
    assert forall x :: x != t ==> At(m', x) == At(m, x);
    QueueFrame(m, m', a);
    LensFrame(m, m', a);
  }

  /** A successor that can be read is main[0], linked. */
  lemma NextIsFirst(m: Memory, a: Abs)
    requires Related(m, a) && a.Held? && At(m, a.owner.who).next.Some?
    ensures a.q.main != [] && a.q.main[0].who == At(m, a.owner.who).next.value
    ensures ScannedTo(m, a, 0, a.q.main[0].who)
  {
    assert a.q.main != [] ==> MainNode(m, a, 0);
  }

  lemma ReadNextKeeps(m: Memory, t: Tid, l: Label, a: Abs)
    requires Related(m, a) && Enabled(m, t, l) && (l.ReadNext? || l.SeeLink?)
    ensures Related(Do(m, t, l), a)
  {
    ReleaserOwns(m, a, t);
    var m' := Do(m, t, l);
    if At(m, t).next.Some? {
      NextIsFirst(m, a);
      LinksSame(m, m', a);
      ScanFrame(m, m', a, 0, a.q.main[0].who);
      assert t == Before(a, 0);
    }
    OwnerMoves(m, t, At(m', t).pc, a);
  }

  lemma AdvanceKeeps(m: Memory, t: Tid, keep: bool, a: Abs)
    requires Related(m, a) && Enabled(m, t, Advance(keep))
    ensures Related(Do(m, t, Advance(keep)), a)
  {
    AdvanceKeepsScan(m, t, keep, a);
    OwnerMoves(m, t, At(Do(m, t, Advance(keep)), t).pc, a);
  }

  lemma AdvanceKeepsScan(m: Memory, t: Tid, keep: bool, a: Abs)
    requires Related(m, a) && Enabled(m, t, Advance(keep))
    ensures a.Held? && ScanShape(Do(m, t, Advance(keep)), a)
  {
    ReleaserOwns(m, a, t);
    var m' := Do(m, t, Advance(keep));
    var Scan(cur, last, best) := At(m, t).pc;
    var k: nat :| ScannedTo(m, a, k, cur) && last == Before(a, k) && Candidate(a, k, best);
    LinksSame(m, m', a);
    assert Before(a, k + 1) == cur;
    assert k + 1 < |a.q.main| ==> MainNode(m, a, k + 1);
    var next := a.q.main[k + 1].who;
    assert ScannedTo(m, a, k + 1, next);
    ScanFrame(m, m', a, k + 1, next);
    assert At(m', t).pc.best != best ==> k > 0;
    assert At(m', t).pc.best.Some? ==> At(m', t).pc.best == best || At(m', t).pc.best.value == (cur, Before(a, k));
  }

  lemma EndScanKeeps(m: Memory, t: Tid, keep: bool, a: Abs)
    requires Related(m, a) && Enabled(m, t, EndScan(keep))
    ensures Related(Do(m, t, EndScan(keep)), a)
  {
    ReleaserOwns(m, a, t);
    var m' := Do(m, t, EndScan(keep));
    var Scan(cur, last, best) := At(m, t).pc;
    var k: nat :| ScannedTo(m, a, k, cur) && last == Before(a, k) && Candidate(a, k, best);
    LinksSame(m, m', a);
    ScanFrame(m, m', a, k, cur);
    assert At(m', t).pc.best != best ==> k > 0;
    assert At(m', t).pc.best.Some? ==> At(m', t).pc.best == best || At(m', t).pc.best.value == (cur, Before(a, k));
    OwnerMoves(m, t, At(m', t).pc, a);
  }

  lemma CasFailKeeps(m: Memory, t: Tid, a: Abs)
    requires Related(m, a) && Enabled(m, t, Cas) && m.tail != Some(t)
    ensures Related(Do(m, t, Cas), a)
  {
    ReleaserOwns(m, a, t);
    OwnerMoves(m, t, AwaitLink, a);
  }

  lemma ObserveKeeps(m: Memory, t: Tid, a: Abs)
    requires Related(m, a) && Enabled(m, t, Observe)
    ensures Related(Do(m, t, Observe), a)
    ensures a.Held? && t == a.owner.who
  {
    var m' := Do(m, t, Observe);
    assert Member(a, t);
    if t != a.owner.who { WaitersWait(m, a, t); }
    assert forall x :: x != t ==> At(m', x) == At(m, x);
    QueueFrame(m, m', a);
    LensFrame(m, m', a);
  }

  lemma StoreKeeps(m: Memory, t: Tid, a: Abs)
    requires Related(m, a) && Enabled(m, t, Store)
    ensures Related(Do(m, t, Store), a)
  {
    var m' := Do(m, t, Store);
    var o := a.owner.who;
    assert At(m, t).pc.to == o != t;
    if Member(a, t) { WaitersWait(m, a, t); }
    assert forall x :: x != t && x != o ==> At(m', x) == At(m, x);
    QueueFrame(m, m', a);
    LensFrame(m, m', a);
    MembersOf(a);
  }

  // ----- Arrivals ----------------------------------------------------------------------

  lemma ExchangeOnFree(m: Memory, t: Tid, a: Abs)
    requires Related(m, a) && Enabled(m, t, Exchange) && a.Free?
    ensures Related(Do(m, t, Exchange), Effect(m, t, Exchange, a))
  {
    var m', a' := Do(m, t, Exchange), Effect(m, t, Exchange, a);
    assert forall x :: x != t ==> At(m', x) == At(m, x);
    assert All(a') == [a'.owner];
    MembersOf(a');
    assert forall x :: !Outside(At(m, x).pc) ==> Member(a, x);
    assert forall x :: !Member(a, x);
  }

  lemma MembersGrow(a: Abs, a': Abs, w: Waiter<Tid>)
    requires a.Held? && a'.Held? && All(a') == All(a) + [w]
    ensures forall x :: Member(a', x) <==> Member(a, x) || x == w.who
  {
    forall x | Member(a, x) || x == w.who ensures Member(a', x) {
      if Member(a, x) {
        var i :| 0 <= i < |All(a)| && All(a)[i].who == x;
        assert All(a')[i].who == x;
      } else {
        assert All(a')[|All(a)|].who == x;
      }
    }
  }

  lemma ArrivalKeepsQueues(m: Memory, t: Tid, a: Abs)
    requires Related(m, a) && Enabled(m, t, Exchange) && a.Held? && !Member(a, t)
    ensures var m', a' := Do(m, t, Exchange), Effect(m, t, Exchange, a);
            MainShape(m', a') && SecShape(m', a')
  {
    var m', a' := Do(m, t, Exchange), Effect(m, t, Exchange, a);
    var n := |a.q.main|;
    MembersOf(a);
    assert forall x :: x != t ==> At(m', x) == At(m, x);
    assert forall i :: 0 <= i <= n ==> Before(a', i) == Before(a, i);
    forall i | 0 <= i < |a'.q.main| ensures MainNode(m', a', i) {
      if i < n { assert MainNode(m, a, i); } else { assert PendingAt(m', a', n); }
    }
    forall i | 0 <= i < |a'.q.sec| ensures SecNode(m', a', i) {
      assert SecNode(m, a, i);
    }
  }

  lemma ArrivalKeepsScan(m: Memory, t: Tid, a: Abs)
    requires Related(m, a) && Enabled(m, t, Exchange) && a.Held? && !Member(a, t)
    ensures ScanShape(Do(m, t, Exchange), Effect(m, t, Exchange, a))
  {
    var m', a' := Do(m, t, Exchange), Effect(m, t, Exchange, a);
    MembersOf(a);
    assert forall x :: x != t ==> At(m', x) == At(m, x);
    match At(m, a.owner.who).pc
    case Scan(cur, last, best) =>
      var k: nat :| ScannedTo(m, a, k, cur) && last == Before(a, k) && Candidate(a, k, best);
      ScannedToLonger(m, m', a, a', k, cur, best);
    case Missed(cur, best) =>
      var k: nat :| ScannedTo(m, a, k, cur) && Candidate(a, k, best);
      ScannedToLonger(m, m', a, a', k, cur, best);
    case _ =>
  }

  lemma ComerIsNew(m: Memory, t: Tid, a: Abs)
    requires Related(m, a) && Enabled(m, t, Exchange) && a.Held?
    ensures !Member(a, t)
  {
    if Member(a, t) && t != a.owner.who {
      WaitersWait(m, a, t);
    }
  }

  lemma ArrivalKeepsIds(m: Memory, t: Tid, a: Abs)
    requires Related(m, a) && Enabled(m, t, Exchange) && a.Held? && !Member(a, t)
    ensures var m', a' := Do(m, t, Exchange), Effect(m, t, Exchange, a);
      && DistinctIds(All(a')) && LensFit(m', a') && TokenShape(m', a')
      && All(a') == All(a) + [Waiter(t, At(m, t).len)]
  {
    var m', a' := Do(m, t, Exchange), Effect(m, t, Exchange, a);
    assert forall x :: x != t ==> At(m', x) == At(m, x);
    assert All(a') == All(a) + [Waiter(t, At(m, t).len)];
    assert forall i :: 0 <= i < |All(a)| ==> Member(a, All(a)[i].who);
    assert Member(a, a.owner.who) by { MembersOf(a); }
  }

  lemma ExchangeOnHeld(m: Memory, t: Tid, a: Abs)
    requires Related(m, a) && Enabled(m, t, Exchange) && a.Held?
    ensures Related(Do(m, t, Exchange), Effect(m, t, Exchange, a))
    ensures !Member(a, t)
  {
    var m', a' := Do(m, t, Exchange), Effect(m, t, Exchange, a);
    ComerIsNew(m, t, a);
    ArrivalKeepsQueues(m, t, a);
    ArrivalKeepsScan(m, t, a);
    ArrivalKeepsIds(m, t, a);
    MembersGrow(a, a', Waiter(t, At(m, t).len));
    assert forall x :: x != t ==> At(m', x) == At(m, x);
  }

  lemma ScannedToLonger(m: Memory, m': Memory, a: Abs, a': Abs, k: nat, cur: Tid, best: Option<(Tid, Tid)>)
    requires a.Held? && a'.Held? && ScannedTo(m, a, k, cur) && Candidate(a, k, best)
    requires a'.owner == a.owner && a.q.main <= a'.q.main
    requires At(m', a.owner.who).next == At(m, a.owner.who).next
    requires forall i :: 0 <= i < |a.q.main| ==> At(m', a.q.main[i].who) == At(m, a.q.main[i].who)
    ensures ScannedTo(m', a', k, cur) && Before(a', k) == Before(a, k) && Candidate(a', k, best)
  {
    assert forall i :: 0 <= i < |a.q.main| ==> Before(a', i) == Before(a, i);
    forall i | 0 <= i <= k ensures LinkedAt(m', a', i) {
      assert LinkedAt(m, a, i);
    }
  }

  /** A thread about to link is main[i] for some i, and nobody else. */
  lemma {:induction false} LinkerIs(m: Memory, t: Tid, a: Abs) returns (i: nat)
    requires Related(m, a) && At(m, t).pc.Linking?
    ensures a.Held? && i < |a.q.main| && a.q.main[i].who == t && PendingAt(m, a, i)
    ensures Member(a, t) && t != a.owner.who
    ensures forall j :: 0 <= j < |a.q.sec| ==> a.q.sec[j].who != t
  {
    assert Member(a, t);
    LinkerIsNotSec(m, t, a);
    MembersOf(a);
    i :| i < |a.q.main| && a.q.main[i].who == t;
    assert MainNode(m, a, i);
  }

  lemma LinkerIsNotSec(m: Memory, t: Tid, a: Abs)
    requires Related(m, a) && At(m, t).pc.Linking? && a.Held?
    ensures t != a.owner.who && forall j :: 0 <= j < |a.q.sec| ==> a.q.sec[j].who != t
  {
    forall j | 0 <= j < |a.q.sec| ensures a.q.sec[j].who != t {
      assert SecNode(m, a, j);
    }
  }

  lemma LinkKeepsQueues(m: Memory, t: Tid, a: Abs, i: nat)
    requires Related(m, a) && Enabled(m, t, Link) && a.Held?
    requires i < |a.q.main| && a.q.main[i].who == t && PendingAt(m, a, i)
    requires forall j :: 0 <= j < |a.q.sec| ==> a.q.sec[j].who != t
    ensures var m' := Do(m, t, Link);
            && MainShape(m', a) && SecShape(m', a) && m'.tail == m.tail
            && forall j :: 0 <= j < |a.q.main| && LinkedAt(m, a, j) ==> LinkedAt(m', a, j)
  {
    var m' := Do(m, t, Link);
    var p := Before(a, i);
    Apart(a);
    assert p != t;
    assert forall x :: x != t && x != p ==> At(m', x) == At(m, x);
    assert forall j :: 0 <= j <= |a.q.main| && j != i ==> Before(a, j) != p;
    forall j | 0 <= j < |a.q.main| ensures MainNode(m', a, j) && (LinkedAt(m, a, j) ==> LinkedAt(m', a, j)) {
      assert MainNode(m, a, j);
    }
    forall j | 0 <= j < |a.q.sec| ensures SecNode(m', a, j) {
      assert SecNode(m, a, j);
    }
  }

  lemma LinkKeeps(m: Memory, t: Tid, a: Abs)
    requires Related(m, a) && Enabled(m, t, Link)
    ensures Related(Do(m, t, Link), a)
  {
    var m' := Do(m, t, Link);
    var i := LinkerIs(m, t, a);
    var p := Before(a, i);
    LinkKeepsQueues(m, t, a, i);
    assert p != t by { Apart(a); }
    assert forall x :: x != t && x != p ==> At(m', x) == At(m, x);
    assert Member(a, p) by { MembersOf(a); }
    if p != a.owner.who { WaitersWait(m, a, p); }
    LensFrame(m, m', a);
    ScanShapeFrame(m, m', a);
    assert TokenShape(m', a) by {
      if g :| At(m, g).pc.Granting? {
        assert At(m', g).pc.Granting?;
      }
    }
  }

  // ----- Handing over ------------------------------------------------------------------

  lemma HandOverMembers(a: Abs, c: Choice, b: nat)
    requires a.Held? && Allowed(a.q, c) && DistinctIds(All(a))
    ensures DistinctIds(All(HandOver(a, c, b)))
    ensures forall x :: Member(a, x) && x != a.owner.who ==> Member(HandOver(a, c, b), x)
    ensures forall i :: 0 <= i < |All(HandOver(a, c, b))| ==> All(HandOver(a, c, b))[i] in All(a)
    ensures a.owner.who != HandOver(a, c, b).owner.who
  {
    var a', r := HandOver(a, c, b), Rank(a.q, c);
    var l, l' := All(a), All(a');
    HandoffRemovesOne(a.q, c);
    assert l[0] == a.owner && l'[0] == l[r + 1];
    assert forall i :: 0 < i < |l'| ==> l'[i] == l[if i - 1 < r then i else i + 1];
    forall x | Member(a, x) && x != a.owner.who ensures Member(a', x) {
      var i :| 0 <= i < |l| && l[i].who == x;
      assert l'[if i == r + 1 then 0 else if i <= r then i else i - 1].who == x;
    }
  }

  /** The owner has decided and now owes the grant; the queues already have their new shape. */
  lemma HandOverKeeps(m: Memory, m': Memory, a: Abs, c: Choice, b: nat)
    requires Related(m, a) && a.Held? && Releasing(At(m, a.owner.who).pc)
    requires Allowed(a.q, c)
    requires var a' := HandOver(a, c, b);
             && MainShape(m', a') && SecShape(m', a')
             && At(m', a.owner.who).pc.Granting? && At(m', a.owner.who).pc.to == a'.owner.who
             && At(m', a.owner.who).pc.word.Grant? && WordFits(a', At(m', a.owner.who).pc.word)
             && At(m', a'.owner.who).pc.Waiting?
    requires forall x :: x != a.owner.who ==>
               At(m', x).pc == At(m, x).pc && At(m', x).spin == At(m, x).spin
    requires forall x :: At(m', x).len == At(m, x).len
    requires forall x :: !Member(a, x) ==> At(m', x) == At(m, x)
    ensures Related(m', HandOver(a, c, b))
  {
    var a' := HandOver(a, c, b);
    ReleaserOwns(m, a, a.owner.who);
    HandOverMembers(a, c, b);
    forall x | !Outside(At(m', x).pc) ensures Member(a', x) {
      assert Member(a, x);
    }
    forall i | 0 <= i < |All(a')| ensures At(m', All(a')[i].who).len == All(a')[i].len {
      var j :| 0 <= j < |All(a)| && All(a)[j] == All(a')[i];
    }
    assert All(a')[0] == a'.owner;
    assert Member(a, a'.owner.who) by {
      var j :| 0 <= j < |All(a)| && All(a)[j] == All(a')[0];
    }
    WaitersWait(m, a, a'.owner.who);
    forall x | At(m', x).pc.Entering? ensures At(m', x).next.None? && At(m', x).spin.Zero? {
      if Member(a, x) && x != a.owner.who { WaitersWait(m, a, x); }
    }
  }

  /** Granting the oldest waiter of a non-empty secondary queue: its last node must now lead to
      main[0], or be the tail when the main queue is empty. */
  /** m' is m with the end of the secondary queue linked to the main one, but for the owner's node. */
  ghost predicate Joins(m: Memory, m': Memory, a: Abs)
    requires a.Held? && a.q.sec != []
  {
    var e := a.q.sec[|a.q.sec| - 1].who;
    && (forall x :: x != a.owner.who && x != e ==> At(m', x) == At(m, x))
    && At(m', e).pc == At(m, e).pc && At(m', e).spin == At(m, e).spin
    && At(m', e).next == (if a.q.main == [] then None else Some(a.q.main[0].who))
    && m'.tail == (if a.q.main == [] then Some(e) else m.tail)
    && (a.q.main != [] ==> LinkedAt(m, a, 0))
  }

  lemma OldestNodes(m: Memory, m': Memory, a: Abs, b: nat, i: nat)
    requires Related(m, a) && a.Held? && a.q.sec != [] && Joins(m, m', a)
    requires i < |HandOver(a, Oldest, b).q.main|
    ensures MainNode(m', HandOver(a, Oldest, b), i)
  {
    Apart(a);
    if i < |a.q.sec| - 1 {
      OldestFromSec(m, m', a, b, i);
    } else {
      OldestFromMain(m, m', a, b, i - (|a.q.sec| - 1));
    }
  }

  lemma OldestShapes(m: Memory, m': Memory, a: Abs, b: nat)
    requires Related(m, a) && a.Held? && a.q.sec != [] && Joins(m, m', a)
    ensures MainShape(m', HandOver(a, Oldest, b)) && SecShape(m', HandOver(a, Oldest, b))
    ensures At(m', a.q.sec[0].who).pc.Waiting?
  {
    var a', n := HandOver(a, Oldest, b), |a.q.sec|;
    Apart(a);
    assert SecNode(m, a, 0);
    forall i | 0 <= i < |a'.q.main| ensures MainNode(m', a', i) {
      OldestNodes(m, m', a, b, i);
    }
    if a.q.main == [] {
      assert Before(a', |a'.q.main|) == a.q.sec[n - 1].who;
    } else {
      assert Before(a', |a'.q.main|) == Before(a, |a.q.main|);
    }
  }

  lemma OldestFromSec(m: Memory, m': Memory, a: Abs, b: nat, i: nat)
    requires a.Held? && SecShape(m, a) && i + 1 < |a.q.sec| && DistinctIds(All(a))
    requires At(m', a.q.sec[i].who) == At(m, a.q.sec[i].who)
    requires At(m', a.q.sec[i + 1].who).pc == At(m, a.q.sec[i + 1].who).pc
    requires At(m', a.q.sec[i + 1].who).spin == At(m, a.q.sec[i + 1].who).spin
    ensures MainNode(m', HandOver(a, Oldest, b), i)
  {
    var a' := HandOver(a, Oldest, b);
    assert SecNode(m, a, i) && SecNode(m, a, i + 1);
    assert a'.q.main[i] == a.q.sec[i + 1];
    assert Before(a', i) == a.q.sec[i].who;
  }

  lemma OldestFromMain(m: Memory, m': Memory, a: Abs, b: nat, i: nat)
    requires a.Held? && MainShape(m, a) && i < |a.q.main| && a.q.sec != []
    requires At(m', a.q.main[i].who) == At(m, a.q.main[i].who)
    requires i > 0 ==> At(m', a.q.main[i - 1].who) == At(m, a.q.main[i - 1].who)
    requires i == 0 ==> LinkedAt(m, a, 0)
    requires i == 0 ==> At(m', a.q.sec[|a.q.sec| - 1].who).next == Some(a.q.main[0].who)
    ensures MainNode(m', HandOver(a, Oldest, b), |a.q.sec| - 1 + i)
  {
    var a', j := HandOver(a, Oldest, b), |a.q.sec| - 1 + i;
    assert MainNode(m, a, i);
    assert a'.q.main[j] == a.q.main[i];
    if i == 0 {
      assert Before(a', j) == a.q.sec[|a.q.sec| - 1].who;
      assert LinkedAt(m', a', j);
    } else {
      assert Before(a', j) == a.q.main[i - 1].who;
    }
  }

  /** Granting main[j]: the nodes before it now end the secondary queue. */
  lemma PickMain(m: Memory, m': Memory, a: Abs, j: nat, b: nat)
    requires a.Held? && MainShape(m, a) && j < |a.q.main| && m'.tail == m.tail
    requires forall i :: j <= i < |a.q.main| ==> At(m', a.q.main[i].who) == At(m, a.q.main[i].who)
    ensures MainShape(m', HandOver(a, Pick(j), b))
  {
    var a' := HandOver(a, Pick(j), b);
    assert forall i :: 0 <= i <= |a'.q.main| ==> Before(a', i) == a.q.main[j + i].who;
    forall i | 0 <= i < |a'.q.main| ensures MainNode(m', a', i) {
      assert MainNode(m, a, j + 1 + i);
    }
  }

  /** What a splice leaves behind: `last` ends the secondary queue, whose former end leads to
      main[0]. */
  ghost predicate Spliced(m: Memory, m': Memory, a: Abs, j: nat)
    requires a.Held? && 0 < j < |a.q.main|
  {
    var last, n := a.q.main[j - 1].who, |a.q.sec|;
    && m'.tail == m.tail
    && At(m', last).next == None
    && (n > 0 ==> At(m', a.q.sec[n - 1].who).next == Some(a.q.main[0].who))
    && At(m', if n > 0 then a.q.sec[0].who else a.q.main[0].who).secTail == Some(last)
    && (forall x :: x != a.owner.who ==> At(m', x).pc == At(m, x).pc && At(m', x).spin == At(m, x).spin)
    && (forall x :: x != last && (n > 0 ==> x != a.q.sec[n - 1].who) ==> At(m', x).next == At(m, x).next)
    && (forall x :: At(m', x).len == At(m, x).len)
    && (forall x :: !Member(a, x) ==> At(m', x) == At(m, x))
    && (forall i :: j <= i < |a.q.main| ==> At(m', a.q.main[i].who) == At(m, a.q.main[i].who))
  }

  lemma PickSec(m: Memory, m': Memory, a: Abs, j: nat, b: nat)
    requires Related(m, a) && a.Held? && 0 < j < |a.q.main| && Spliced(m, m', a, j)
    requires forall i :: 0 <= i <= j ==> LinkedAt(m, a, i)
    ensures SecShape(m', HandOver(a, Pick(j), b))
  {
    var a' := HandOver(a, Pick(j), b);
    forall i | 0 <= i < |a'.q.sec| ensures SecNode(m', a', i) {
      PickSecNode(m, m', a, j, b, i);
    }
    PickSecEnds(m, m', a, j, b);
  }

  lemma PickSecNode(m: Memory, m': Memory, a: Abs, j: nat, b: nat, i: nat)
    requires Related(m, a) && a.Held? && 0 < j < |a.q.main| && Spliced(m, m', a, j)
    requires (forall x :: 0 <= x <= j ==> LinkedAt(m, a, x)) && i < |HandOver(a, Pick(j), b).q.sec|
    ensures SecNode(m', HandOver(a, Pick(j), b), i)
  {
    if i < |a.q.sec| {
      PickOldSec(m, m', a, j, b, i);
    } else {
      PickNewSec(m, m', a, j, b, i - |a.q.sec|);
    }
  }

  lemma PickSecEnds(m: Memory, m': Memory, a: Abs, j: nat, b: nat)
    requires a.Held? && 0 < j < |a.q.main| && Spliced(m, m', a, j)
    ensures var sec := HandOver(a, Pick(j), b).q.sec;
      sec != [] && At(m', sec[0].who).secTail == Some(sec[|sec| - 1].who)
  {
    var sec, n := HandOver(a, Pick(j), b).q.sec, |a.q.sec|;
    assert |sec| == n + j && sec[n + j - 1] == a.q.main[j - 1];
    assert sec[0] == if n > 0 then a.q.sec[0] else a.q.main[0];
  }

  lemma PickOldSec(m: Memory, m': Memory, a: Abs, j: nat, b: nat, i: nat)
    requires Related(m, a) && a.Held? && 0 < j < |a.q.main| && Spliced(m, m', a, j) && i < |a.q.sec|
    ensures SecNode(m', HandOver(a, Pick(j), b), i)
  {
    var a' := HandOver(a, Pick(j), b);
    Apart(a);
    assert SecNode(m, a, i);
    assert a'.q.sec[i] == a.q.sec[i];
    assert i + 1 < |a.q.sec| ==> a'.q.sec[i + 1] == a.q.sec[i + 1];
    assert i + 1 == |a.q.sec| ==> a'.q.sec[i + 1] == a.q.main[0];
  }

  lemma PickNewSec(m: Memory, m': Memory, a: Abs, j: nat, b: nat, i: nat)
    requires Related(m, a) && a.Held? && 0 < j < |a.q.main| && Spliced(m, m', a, j) && i < j
    requires forall x :: 0 <= x <= j ==> LinkedAt(m, a, x)
    ensures SecNode(m', HandOver(a, Pick(j), b), |a.q.sec| + i)
  {
    var a', n := HandOver(a, Pick(j), b), |a.q.sec|;
    Apart(a);
    assert MainNode(m, a, i) && LinkedAt(m, a, i);
    assert a'.q.sec[n + i] == a.q.main[i];
    if i < j - 1 {
      assert LinkedAt(m, a, i + 1);
      assert a'.q.sec[n + i + 1] == a.q.main[i + 1];
    }
  }

  /** The cells a splice writes, with or without a secondary queue. */
  lemma SpliceWrites(m: Memory, t: Tid, last: Tid, pc: Pc)
    requires At(m, t).next.Some?
    requires HeadIn(At(m, t).spin).Some? ==> At(m, HeadIn(At(m, t).spin).value).secTail.Some?
    ensures var m', first, h := SetPc(Splice(m, t, last), t, pc), At(m, t).next, HeadIn(At(m, t).spin);
            && m'.tail == m.tail
            && forall x :: At(m', x) == Node(
                 if x == last then None
                 else if h.Some? && Some(x) == At(m, h.value).secTail then first else At(m, x).next,
                 At(m, x).spin,
                 if Some(x) == (if h.Some? then h else first) then Some(last) else At(m, x).secTail,
                 At(m, x).len,
                 if x == t then pc else At(m, x).pc)
  {
  }

  lemma SpliceDoes(m: Memory, a: Abs, j: nat, pc: Pc)
    requires Related(m, a) && a.Held? && Releasing(At(m, a.owner.who).pc) && 0 < j < |a.q.main|
    requires LinkedAt(m, a, 0)
    ensures Spliced(m, SetPc(Splice(m, a.owner.who, a.q.main[j - 1].who), a.owner.who, pc), a, j)
    ensures HeadAfterSplice(m, a.owner.who)
            == Some(if a.q.sec != [] then a.q.sec[0].who else a.q.main[0].who)
  {
    ReleaserOwns(m, a, a.owner.who);
    assert Before(a, 0) == a.owner.who;
    SpliceWrites(m, a.owner.who, a.q.main[j - 1].who, pc);
    WritesSplice(m, SetPc(Splice(m, a.owner.who, a.q.main[j - 1].who), a.owner.who, pc), a, j, pc);
  }

  /** m' is m with the stores of a splice up to main[j - 1]. */
  ghost predicate Writes(m: Memory, m': Memory, a: Abs, j: nat, pc: Pc)
    requires a.Held? && 0 < j < |a.q.main|
  {
    var t, last, n, first := a.owner.who, a.q.main[j - 1].who, |a.q.sec|, a.q.main[0].who;
    && m'.tail == m.tail
    && forall x :: At(m', x) == Node(
         if x == last then None else if n > 0 && x == a.q.sec[n - 1].who then Some(first) else At(m, x).next,
         At(m, x).spin,
         if x == (if n > 0 then a.q.sec[0].who else first) then Some(last) else At(m, x).secTail,
         At(m, x).len,
         if x == t then pc else At(m, x).pc)
  }

  lemma WritesSplice(m: Memory, m': Memory, a: Abs, j: nat, pc: Pc)
    requires Related(m, a) && a.Held? && 0 < j < |a.q.main| && Writes(m, m', a, j, pc)
    ensures Spliced(m, m', a, j)
  {
    Apart(a);
    MembersOf(a);
  }

  // ----- Decisions ---------------------------------------------------------------------

  lemma DrainKeeps(m: Memory, t: Tid, a: Abs)
    requires Related(m, a) && Enabled(m, t, Cas) && m.tail == Some(t)
    ensures Related(Do(m, t, Cas), Effect(m, t, Cas, a))
    ensures a.Held? && t == a.owner.who && a.q.main == []
  {
    var m' := Do(m, t, Cas);
    ReleaserOwns(m, a, t);
    Apart(a);
    assert a.q.main == [];
    assert forall x :: x != t ==> At(m', x) == At(m, x);
    if a.q.sec == [] {
      MembersOf(a);
      assert forall x :: Member(a, x) ==> x == t;
    } else {
      assert SecNode(m, a, |a.q.sec| - 1);
      OldestShapes(m, m', a, 1);
      HandOverKeeps(m, m', a, Oldest, 1);
    }
  }

  /** Where a scan stands. */
  lemma {:induction false} ScanStands(m: Memory, t: Tid, a: Abs) returns (k: nat)
    requires Related(m, a) && (At(m, t).pc.Scan? || At(m, t).pc.Missed?)
    ensures a.Held? && t == a.owner.who && WordFits(a, At(m, t).spin)
    ensures ScannedTo(m, a, k, At(m, t).pc.cur) && Candidate(a, k, At(m, t).pc.best)
    ensures At(m, t).pc.Scan? ==> At(m, t).pc.last == Before(a, k)
    ensures At(m, t).next == Some(a.q.main[0].who) && LinkedAt(m, a, 0)
    ensures IndexOf(a.q.main, At(m, t).pc.cur) == k
  {
    ReleaserOwns(m, a, t);
    if At(m, t).pc.Scan? {
      var cur, last, best := At(m, t).pc.cur, At(m, t).pc.last, At(m, t).pc.best;
      k :| ScannedTo(m, a, k, cur) && last == Before(a, k) && Candidate(a, k, best);
    } else {
      var cur, best := At(m, t).pc.cur, At(m, t).pc.best;
      k :| ScannedTo(m, a, k, cur) && Candidate(a, k, best);
    }
    assert LinkedAt(m, a, 0) && Before(a, 0) == t;
    IndexIs(a, k);
  }

  lemma PickFirstKeeps(m: Memory, t: Tid, b: nat, thr: int, a: Abs)
    requires Related(m, a) && a.Held? && t == a.owner.who && Releasing(At(m, t).pc)
    requires a.q.main != [] && LinkedAt(m, a, 0)
    ensures Related(SetPc(m, t, Granting(a.q.main[0].who, Grant(b, HeadIn(At(m, t).spin)))).(threshold := thr),
                    HandOver(a, Pick(0), b))
  {
    var m' := SetPc(m, t, Granting(a.q.main[0].who, Grant(b, HeadIn(At(m, t).spin)))).(threshold := thr);
    ReleaserOwns(m, a, t);
    Apart(a);
    MembersOf(a);
    assert forall x :: x != t ==> At(m', x) == At(m, x);
    PickMain(m, m', a, 0, b);
    FirstKeepsSec(m, m', a, b);
    HandOverKeeps(m, m', a, Pick(0), b);
  }

  lemma FirstKeepsSec(m: Memory, m': Memory, a: Abs, b: nat)
    requires Related(m, a) && a.Held? && a.q.main != []
    requires forall x :: x != a.owner.who ==> At(m', x) == At(m, x)
    ensures SecShape(m', HandOver(a, Pick(0), b))
  {
    Apart(a);
    assert HandOver(a, Pick(0), b).q.sec == a.q.sec;
    forall i | 0 <= i < |a.q.sec| ensures SecNode(m', HandOver(a, Pick(0), b), i) {
      assert SecNode(m, a, i);
    }
  }

  lemma PickLaterKeeps(m: Memory, t: Tid, j: nat, b: nat, thr: int, a: Abs)
    requires Related(m, a) && a.Held? && t == a.owner.who && Releasing(At(m, t).pc)
    requires 0 < j < |a.q.main| && forall i :: 0 <= i <= j ==> LinkedAt(m, a, i)
    ensures Related(SetPc(Splice(m, t, a.q.main[j - 1].who), t,
                          Granting(a.q.main[j].who, Grant(b, HeadAfterSplice(m, t)))).(threshold := thr),
                    HandOver(a, Pick(j), b))
  {
    var pc := Granting(a.q.main[j].who, Grant(b, HeadAfterSplice(m, t)));
    var m1 := SetPc(Splice(m, t, a.q.main[j - 1].who), t, pc);
    var m' := m1.(threshold := thr);
    assert LinkedAt(m, a, 0) && LinkedAt(m, a, j);
    SpliceDoes(m, a, j, pc);
    assert forall x :: At(m', x) == At(m1, x);
    PickMain(m, m', a, j, b);
    PickSec(m, m', a, j, b);
    HandOverKeeps(m, m', a, Pick(j), b);
  }

  lemma PickCurKeeps(m: Memory, t: Tid, b: nat, thr: int, a: Abs)
    requires Related(m, a) && Enabled(m, t, PickCur(b, thr))
    ensures Related(Do(m, t, PickCur(b, thr)), Effect(m, t, PickCur(b, thr), a))
  {
    var k := ScanStands(m, t, a);
    Apart(a);
    assert (Before(a, k) == t) == (k == 0);
    if k == 0 {
      PickFirstKeeps(m, t, b, thr, a);
    } else {
      PickLaterKeeps(m, t, k, b, thr, a);
    }
  }

  lemma PickBestKeeps(m: Memory, t: Tid, b: nat, thr: int, a: Abs)
    requires Related(m, a) && Enabled(m, t, PickBest(b, thr))
    ensures Related(Do(m, t, PickBest(b, thr)), Effect(m, t, PickBest(b, thr), a))
  {
    var k := ScanStands(m, t, a);
    var best := At(m, t).pc.best;
    var j: nat :| 0 < j <= k && j < |a.q.main| && best.value == (a.q.main[j].who, Before(a, j));
    IndexIs(a, j);
    PickLaterKeeps(m, t, j, b, thr, a);
  }

  lemma FlushSecKeeps(m: Memory, t: Tid, b: nat, thr: int, a: Abs)
    requires Related(m, a) && Enabled(m, t, Flush(b, thr)) && a.Held? && a.q.sec != []
    ensures Related(Do(m, t, Flush(b, thr)), HandOver(a, Oldest, b))
  {
    var k := ScanStands(m, t, a);
    var m' := Do(m, t, Flush(b, thr));
    Apart(a);
    var e := a.q.sec[|a.q.sec| - 1].who;
    assert Member(a, e) by { MembersOf(a); }
    assert forall x :: x != t && x != e ==> At(m', x) == At(m, x);
    assert Allowed(a.q, Oldest);
    OldestShapes(m, m', a, b);
    HandOverKeeps(m, m', a, Oldest, b);
  }

  lemma FlushMainKeeps(m: Memory, t: Tid, b: nat, thr: int, a: Abs)
    requires Related(m, a) && Enabled(m, t, Flush(b, thr)) && a.Held? && a.q.sec == []
    ensures a.q.main != [] && Related(Do(m, t, Flush(b, thr)), HandOver(a, Oldest, b))
  {
    var k := ScanStands(m, t, a);
    PickFirstKeeps(m, t, b, thr, a);
    FlushMainIs(m, t, b, thr, a);
  }

  lemma FlushMainIs(m: Memory, t: Tid, b: nat, thr: int, a: Abs)
    requires Enabled(m, t, Flush(b, thr)) && a.Held? && a.q.sec == [] && a.q.main != []
    requires HeadIn(At(m, t).spin) == None && At(m, t).next == Some(a.q.main[0].who)
    ensures Do(m, t, Flush(b, thr))
            == SetPc(m, t, Granting(a.q.main[0].who, Grant(b, HeadIn(At(m, t).spin)))).(threshold := thr)
    ensures HandOver(a, Pick(0), b) == HandOver(a, Oldest, b)
  {
    assert a.q.sec + a.q.main[..0] == [] && a.q.Order() == a.q.main;
  }

  lemma FlushKeeps(m: Memory, t: Tid, b: nat, thr: int, a: Abs)
    requires Related(m, a) && Enabled(m, t, Flush(b, thr))
    ensures Related(Do(m, t, Flush(b, thr)), Effect(m, t, Flush(b, thr), a))
    ensures a.Held? && a.q.main != []
  {
    var k := ScanStands(m, t, a);
    if a.q.sec == [] {
      FlushMainKeeps(m, t, b, thr, a);
    } else {
      FlushSecKeeps(m, t, b, thr, a);
    }
  }

  /** Every step keeps the memory related to the queue state it stands for. */
  lemma StepKeeps(m: Memory, t: Tid, l: Label, a: Abs)
    requires Related(m, a) && Enabled(m, t, l)
    ensures Related(Do(m, t, l), Effect(m, t, l, a))
  {
    match l
    case Enter(len) => EnterKeeps(m, t, len, a);
    case Exchange => if a.Free? { ExchangeOnFree(m, t, a); } else { ExchangeOnHeld(m, t, a); }
    case Link => LinkKeeps(m, t, a);
    case Observe => ObserveKeeps(m, t, a);
    case ReadNext => ReadNextKeeps(m, t, l, a);
    case Cas => if m.tail == Some(t) { DrainKeeps(m, t, a); } else { CasFailKeeps(m, t, a); }
    case SeeLink => ReadNextKeeps(m, t, l, a);
    case Advance(keep) => AdvanceKeeps(m, t, keep, a);
    case EndScan(keep) => EndScanKeeps(m, t, keep, a);
    case PickCur(b, thr) => PickCurKeeps(m, t, b, thr, a);
    case PickBest(b, thr) => PickBestKeeps(m, t, b, thr, a);
    case Flush(b, thr) => FlushKeeps(m, t, b, thr, a);
    case Store => StoreKeeps(m, t, a);
  }
}
