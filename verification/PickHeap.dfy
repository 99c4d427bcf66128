/** uxpick.c and cspick.c on real nodes, one call at a time, proved against module PickLock. */
module PickHeap {
  import opened TwoQueue
  import opened QueueHeap
  import Uta
  import PickLock

  /** Nodes with their uxthread flags, and with their section lengths. */
  ghost function UxOf(ns: seq<Node>): (ws: seq<PickLock.UxWaiter<Node>>)
    reads ns
    ensures |ws| == |ns| && forall i :: 0 <= i < |ns| ==> ws[i] == PickLock.UxWaiter(ns[i], ns[i].key != 0)
  {
    seq(|ns|, i requires 0 <= i < |ns| reads ns => PickLock.UxWaiter(ns[i], ns[i].key != 0))
  }

  ghost function LensOf(ns: seq<Node>): (ws: seq<Uta.Waiter<Node>>)
    reads ns
    ensures |ws| == |ns| && forall i :: 0 <= i < |ns| ==> ws[i] == Uta.Waiter(ns[i], ns[i].key)
  {
    seq(|ns|, i requires 0 <= i < |ns| reads ns => Uta.Waiter(ns[i], ns[i].key))
  }

  lemma {:induction false} FindUxIs<T>(ws: seq<PickLock.UxWaiter<T>>, j: nat)
    requires j <= |ws| && forall i :: 0 <= i < j ==> !ws[i].ux
    requires j < |ws| ==> ws[j].ux
    ensures PickLock.FindUx(ws) == if j < |ws| then Some(j) else None
  {
  }

  /** The part of the lock the two files share. */
  class PickMutex {
    const q: WaitQueue
    const cap: nat
    var batch: nat

    ghost predicate Valid()
      reads this, q, q.line, q.sec
    {
      q.Valid() && (q.line == [] ==> batch == 0)
    }

    /** The lock as module PickLock sees it: the batch is the lock's, not the grant word's. */
    ghost function View(): Lock<Node>
      reads this, q, q.line
    {
      match q.Content()
      case Free => Free
      case Held(o, queue, _) => Held(o, queue, batch)
    }

    constructor (cap: nat)
      ensures Valid() && fresh(q) && View() == Free && this.cap == cap
    {
      q := new WaitQueue();
      this.cap := cap;
      batch := 0;
    }

    /** The lock path up to the wait. */
    method Lock(me: Node) returns (first: bool)
      requires Valid() && !q.Has(me)
      modifies q, me, q.line, q.sec
      ensures Valid()
      ensures View() == (match old(View())
                         case Free => Held(me, Queue([], []), 0)
                         case Held(o, queue, b) => Held(o, queue.(main := queue.main + [me]), b))
      ensures first == (old(q.line) == [])
    {
      first := q.Arrive(me);
    }

    /** trylock: succeeds exactly on a free lock, and then leaves it as a lock would. */
    method TryLock(me: Node) returns (ok: bool)
      requires Valid() && !q.Has(me)
      modifies q, me
      ensures Valid()
      ensures ok == (old(View()) == Free)
      ensures View() == if ok then Held(me, Queue([], []), 0) else old(View())
    {
      me.next, me.head, me.count := null, null, 0;
      ok := q.tail == null;
      if ok {
        q.tail := me;
        q.line := [me];
      }
    }

    /** The splice at the end of find_successor; the new head goes into the releaser's own word. */
    method Detach(me: Node, secHead: Node, secTail: Node, cur: Node, ghost j: nat)
      requires q.Valid() && 0 < j < |q.line| - 1 && me == q.line[0]
      requires secHead == q.line[1] && secTail == q.line[j] && cur == q.line[j + 1]
      modifies q, q.line, q.sec
      ensures q.Shape() && me.head == if q.sec == [] then null else q.sec[0]
      ensures q.line == old(q.line)[j + 1..] && q.sec == old(q.sec) + old(q.line)[1..j + 1]
    {
      var head := q.Splice(me, me.head, secHead, secTail, j);
      me.head := head;
    }

    /** The end of a release that found a successor, main[j] of the lock `s` it started from:
        hand over the word and count. */
    method GrantFound(me: Node, succ: Node, ghost s: Lock<Node>, ghost j: nat)
      requires q.Shape() && q.line != [] && succ == q.line[0] && me != succ
      requires me.head == if q.sec == [] then null else q.sec[0]
      requires s.Held? && j < |s.q.main| && s.batch == batch < cap
      requires Queue(q.sec, q.line) == Queue(s.q.sec + s.q.main[..j], s.q.main[j..])
      modifies `batch, succ
      ensures Valid() && View() == PickLock.Release(cap, s, Some(j))
    {
      succ.head, succ.count := me.head, 1;
      batch := batch + 1;
    }

    /** The end of a release that did not pick: flush and reset, or grant the head and keep the
        batch. */
    method GrantRest(me: Node, ghost found: Option<nat>)
      requires Valid() && |q.line| > 1 && me == q.line[0]
      requires PickLock.Answers(View(), found) && (found.None? || batch >= cap)
      modifies `batch, q, q.line, q.sec
      ensures Valid()
      ensures View() == PickLock.Release(cap, old(View()), found)
    {
      if me.head != null {
        batch := 0;
      }
      q.GrantOldest(me, me.next, me.head, 1);
    }

    /** The end of a release with no successor. */
    method Drain(me: Node)
      requires Valid() && |q.line| == 1 && me == q.line[0]
      modifies `batch, q, q.line, q.sec
      ensures Valid()
      ensures View() == PickLock.Release(cap, old(View()), None)
    {
      q.Drain(me, me.head);
      batch := 0;
    }
  }

  /** The successor is detached: it leads the line, and the releaser's word heads what is behind. */
  ghost predicate Found(m: PickMutex, me: Node, succ: Node?, s: Lock<Node>, j: nat)
    reads m, m.q, m.q.line, m.q.sec, me
  {
    && s.Held? && j < |s.q.main| && s.owner == me
    && m.q.Shape() && succ == s.q.main[j] && me != succ
    && me.head == (if m.q.sec == [] then null else m.q.sec[0])
    && m.q.sec == s.q.sec + s.q.main[..j] && m.q.line == s.q.main[j..]
  }

  /** Detaches the node the search chose, splicing what is in front of it. */
  method Take(m: PickMutex, me: Node, next: Node, succ: Node, secTail: Node, ghost j: nat)
    requires m.Valid() && j + 1 < |m.q.line| && me == m.q.line[0] && next == me.next
    requires succ == m.q.line[j + 1] && (j > 0 ==> secTail == m.q.line[j])
    modifies m.q, m.q.line, m.q.sec
    ensures Found(m, me, succ, old(m.View()), j)
  {
    if succ == next {
      m.q.Skip(me);
    } else {
      m.Detach(me, next, secTail, succ, j);
    }
  }

  /** What a search returns: nobody, or main[j] with the node before it. */
  ghost predicate Points(line: seq<Node>, succ: Node?, secTail: Node, found: Option<nat>)
  {
    match found
    case None => succ == null
    case Some(j) => j + 1 < |line| && succ == line[j + 1] && (j > 0 ==> secTail == line[j])
  }

  /** The search of uxpick.c's find_successor: the first ux thread. */
  method SearchUx(m: PickMutex, next: Node) returns (succ: Node?, secTail: Node)
    requires m.Valid() && |m.q.line| > 1 && next == m.q.line[1]
    ensures Points(m.q.line, succ, secTail, PickLock.FindUx(UxOf(m.q.line[1..])))
  {
    ghost var line := m.q.line;
    ghost var main := UxOf(line[1..]);
    if next.key != 0 {
      FindUxIs(main, 0);
      return next, next;
    }
    var cur := next.next;
    secTail := next;
    ghost var j := 1;
    while cur != null
      invariant 1 <= j <= |main| && secTail == line[j]
      invariant cur == if j < |main| then line[j + 1] else null
      invariant forall i :: 0 <= i < j ==> !main[i].ux
      decreases |main| - j
    {
      if cur.key != 0 {
        FindUxIs(main, j);
        return cur, secTail;
      }
      secTail := cur;
      cur := cur.next;
      j := j + 1;
    }
    FindUxIs(main, j);
    succ := null;
  }

  /** __uxpick_mutex_unlock. */
  method UxUnlock(m: PickMutex, me: Node)
    requires m.Valid() && m.cap == PickLock.UXPICK_THRESHOLD && m.q.line != [] && me == m.q.line[0]
    modifies m`batch, m.q, m.q.line, m.q.sec
    ensures m.Valid()
    ensures m.View() == old(PickLock.Release(PickLock.UXPICK_THRESHOLD, m.View(),
                                             PickLock.FindUx(UxOf(m.q.line[1..]))))
  {
    if me.next == null {
      m.Drain(me);
    } else {
      UxGrantNext(m, me);
    }
  }

  method UxGrantNext(m: PickMutex, me: Node)
    requires m.Valid() && |m.q.line| > 1 && me == m.q.line[0]
    modifies m`batch, m.q, m.q.line, m.q.sec
    ensures m.Valid()
    ensures m.View() == old(PickLock.Release(m.cap, m.View(), PickLock.FindUx(UxOf(m.q.line[1..]))))
  {
    ghost var s, found := m.View(), PickLock.FindUx(UxOf(m.q.line[1..]));
    var next := me.next;
    if m.batch < m.cap {
      var succ, secTail := SearchUx(m, next);
      if succ != null {
        Take(m, me, next, succ, secTail, found.value);
        m.GrantFound(me, succ, s, found.value);
        return;
      }
    }
    m.GrantRest(me, found);
  }

  // ----- cspick.c ----------------------------------------------------------------------

  /** The search of cspick.c's find_successor: the first short section, else the leftmost
      minimum behind the head. */
  function LenOfBest<T>(ws: seq<Uta.Waiter<T>>, best: Option<nat>): int {
    if best.Some? && best.value < |ws| then ws[best.value].len else PickLock.MAX_INT
  }

  lemma BestSoFar<T>(ws: seq<Uta.Waiter<T>>, j: nat, best: Option<nat>)
    requires 1 <= j < |ws| && best == PickLock.LeftmostMin(ws[..j])
    ensures PickLock.LeftmostMin(ws[..j + 1]) == if ws[j].len < LenOfBest(ws, best) then Some(j) else best
    ensures best.Some? ==> LenOfBest(ws, best) < PickLock.MAX_INT
  {
    assert ws[..j + 1][..j] == ws[..j];
    if best.Some? {
      PickLock.LeftmostMinIs(ws[..j]);
    }
  }

  lemma NobodyShort<T>(ws: seq<Uta.Waiter<T>>)
    requires forall i :: 0 <= i < |ws| ==> ws[i].len >= PickLock.MIN_THRESHOLD
    ensures PickLock.FindShortOrMin(ws) == PickLock.LeftmostMin(ws)
    ensures LenOfBest(ws, PickLock.LeftmostMin(ws)) == PickLock.MAX_INT <==> PickLock.LeftmostMin(ws).None?
  {
    PickLock.LeftmostMinIs(ws);
    PickLock.FindShortOrMinIs(ws);
  }

  method SearchShort(m: PickMutex, next: Node) returns (succ: Node?, secTail: Node)
    requires m.Valid() && |m.q.line| > 1 && next == m.q.line[1]
    ensures Points(m.q.line, succ, secTail, PickLock.FindShortOrMin(LensOf(m.q.line[1..])))
  {
    ghost var line := m.q.line;
    ghost var main := LensOf(line[1..]);
    if next.key < PickLock.MIN_THRESHOLD {
      Uta.FirstShortIs(main, PickLock.MIN_THRESHOLD, 0);
      return next, next;
    }
    var cur := next.next;
    var minLen, minTail, minNode := PickLock.MAX_INT, next, next;
    secTail := next;
    ghost var best, j := None, 1;
    while cur != null
      invariant 1 <= j <= |main| && secTail == line[j]
      invariant cur == if j < |main| then line[j + 1] else null
      invariant forall i :: 0 <= i < j ==> main[i].len >= PickLock.MIN_THRESHOLD
      invariant best == PickLock.LeftmostMin(main[..j]) && minLen == LenOfBest(main, best)
      invariant best.Some? ==> minTail == line[best.value] && minNode == line[best.value + 1]
      decreases |main| - j
    {
      if cur.key < PickLock.MIN_THRESHOLD {
        Uta.FirstShortIs(main, PickLock.MIN_THRESHOLD, j);
        return cur, secTail;
      }
      BestSoFar(main, j, best);
      if cur.key < minLen {
        minLen, minTail, minNode, best := cur.key, secTail, cur, Some(j);
      }
      secTail := cur;
      cur := cur.next;
      j := j + 1;
    }
    assert main[..j] == main;
    NobodyShort(main);
    if minLen == PickLock.MAX_INT {
      succ := null;
    } else {
      succ, secTail := minNode, minTail;
    }
  }

  method CsGrantNext(m: PickMutex, me: Node)
    requires m.Valid() && |m.q.line| > 1 && me == m.q.line[0]
    modifies m`batch, m.q, m.q.line, m.q.sec
    ensures m.Valid()
    ensures m.View() == old(PickLock.Release(m.cap, m.View(), PickLock.FindShortOrMin(LensOf(m.q.line[1..]))))
  {
    ghost var s, found := m.View(), PickLock.FindShortOrMin(LensOf(m.q.line[1..]));
    var next := me.next;
    if m.batch < m.cap {
      var succ, secTail := SearchShort(m, next);
      if succ != null {
        Take(m, me, next, succ, secTail, found.value);
        m.GrantFound(me, succ, s, found.value);
        return;
      }
    }
    m.GrantRest(me, found);
  }

  /** __cspick_mutex_unlock. */
  method CsUnlock(m: PickMutex, me: Node)
    requires m.Valid() && m.cap == PickLock.CSPICK_THRESHOLD && m.q.line != [] && me == m.q.line[0]
    modifies m`batch, m.q, m.q.line, m.q.sec
    ensures m.Valid()
    ensures m.View() == old(PickLock.Release(PickLock.CSPICK_THRESHOLD, m.View(),
                                             PickLock.FindShortOrMin(LensOf(m.q.line[1..]))))
  {
    if me.next == null {
      m.Drain(me);
    } else {
      CsGrantNext(m, me);
    }
  }
}
