/** utafts.c on real nodes, one call at a time, proved against module Fts.  `key` is the node's
    `remain_window`. */
module FtsHeap {
  import opened TwoQueue
  import opened QueueHeap
  import Fts

  lemma {:induction false} FirstOpenIs<T>(s: Fts.State<T>, ws: seq<T>, j: nat)
    requires j <= |ws| && forall i :: 0 <= i < j ==> Fts.WindowOf(s, ws[i]) <= 0
    requires j < |ws| ==> Fts.WindowOf(s, ws[j]) > 0
    ensures Fts.FirstOpen(s, ws) == j
  {
    if j > 0 {
      FirstOpenIs(s, ws[1..], j - 1);
    }
  }

  class FtsMutex {
    const q: WaitQueue

    ghost predicate Valid()
      reads this, q, q.line, q.sec
    {
      q.Valid()
    }

    /** The lock as module Fts sees it, with the windows of the queued threads. */
    ghost function Snapshot(): (s: Fts.State<Node>)
      reads this, q, q.line, q.sec
      ensures s.lock == q.Content()
      ensures forall n :: n in s.window ==> s.window[n] == n.key
      ensures (forall n :: n in q.line ==> n in s.window) && (forall n :: n in q.sec ==> n in s.window)
    {
      Fts.State(q.Content(), map n | n in q.line + q.sec :: n.key)
    }

    constructor ()
      ensures Valid() && fresh(q) && q.line == []
    {
      q := new WaitQueue();
    }

    /** __utafts_lock_ux up to the wait. */
    method Lock(me: Node) returns (first: bool)
      requires Valid() && !q.Has(me)
      modifies q, me, q.line, q.sec
      ensures Valid()
      ensures q.Content() == Arrived(old(q.Content()), me) && first == (old(q.line) == [])
      ensures me.key == old(me.key)
      ensures forall n :: n in old(q.line) || n in old(q.sec) ==> n.key == old(n.key)
    {
      first := q.Arrive(me);
    }

    /** Grants main[j] to the node the scan found, or to the oldest waiter when it found none. */
    method Grant(me: Node, next: Node, cur: Node?, secTail: Node, ghost j: nat)
      requires Valid() && |q.line| > 1 && me == q.line[0] && next == me.next
      requires j < |q.line| && cur == (if j + 1 < |q.line| then q.line[j + 1] else null)
      requires j > 0 ==> secTail == q.line[j]
      modifies q, q.line, q.sec
      ensures Valid()
      ensures var s := old(q.Content());
              var c := if j < |s.q.main| then Pick(j) else Oldest;
              q.Content() == Held(Granted(s.q, c), After(s.q, c), 1)
      ensures forall n :: n in old(q.line) || n in old(q.sec) ==> n.key == old(n.key)
    {
      var prevHead := me.head;
      if cur == null {
        q.GrantOldest(me, next, prevHead, 1);
      } else if cur == next {
        q.GrantFirst(me, next, prevHead, 1);
      } else {
        q.GrantLater(me, prevHead, next, secTail, cur, 1, j);
      }
    }

    /** The scan of the main queue; only windows change. */
    method ScanQueue(next: Node) returns (cur: Node?, secTail: Node, ghost j: nat)
      requires Valid() && |q.line| > 1 && next == q.line[1]
      modifies (set n | n in q.line)`key
      ensures Valid() && q.Content() == old(q.Content())
      ensures j == old(Fts.FirstOpen(Snapshot(), q.line[1..]))
      ensures cur == (if j + 1 < |q.line| then q.line[j + 1] else null)
      ensures j > 0 ==> secTail == q.line[j]
      ensures forall i :: 0 <= i < |q.line| ==>
        q.line[i].key == if 1 <= i <= j then Fts.DEFAULT_REFILL_WINDOW else old(q.line[i].key)
    {
      ghost var s := Snapshot();
      cur, secTail, j := Scan(next, q.line, s);
      assert Chain(q.line, null);
      assert Chain(q.sec, null);
      assert Distinct(q.line) && Distinct(q.sec);
      assert q.Shape();
      assert q.Valid();
    }

    /** __utafts_mutex_unlock with a successor: main[j] is the first with time left. */
    method ScanAndGrant(me: Node, next: Node) returns (ghost j: nat)
      requires Valid() && |q.line| > 1 && me == q.line[0] && next == me.next
      modifies q, q.line, q.sec
      ensures Valid()
      ensures j == old(Fts.FirstOpen(Snapshot(), q.line[1..]))
      ensures var s := old(q.Content());
              var c := if j < |s.q.main| then Pick(j) else Oldest;
              q.Content() == Held(Granted(s.q, c), After(s.q, c), 1)
      ensures forall i :: 0 <= i < |old(q.line)| ==>
        old(q.line)[i].key == if 1 <= i <= j then Fts.DEFAULT_REFILL_WINDOW else old(q.line[i].key)
      ensures forall n :: n in old(q.sec) ==> n.key == old(n.key)
    {
      ghost var line, content := q.line, q.Content();
      var cur, secTail, j' := ScanQueue(next);
      j := j';
      assert q.line == line && q.Content() == content;
      Grant(me, next, cur, secTail, j);
      assert forall i :: 0 <= i < |line| ==> line[i] in line;
    }

    /** __utafts_mutex_unlock. */
    method Release(me: Node) returns (ghost j: nat)
      requires Valid() && q.line != [] && me == q.line[0]
      modifies q, q.line, q.sec
      ensures Valid()
      ensures j == old(Fts.FirstOpen(Snapshot(), q.line[1..]))
      ensures q.Content() == Outcome(old(q.Content()), j)
      ensures forall i :: 0 <= i < |old(q.line)| ==>
        old(q.line)[i].key == if 1 <= i <= j then Fts.DEFAULT_REFILL_WINDOW else old(q.line[i].key)
      ensures forall n :: n in old(q.sec) ==> n.key == old(n.key)
    {
      if me.next == null {
        j := 0;
        q.Drain(me, me.head);
      } else {
        j := ScanAndGrant(me, me.next);
      }
    }

    method Charge(me: Node, duration: int)
      requires Valid()
      modifies me`key
      ensures Valid() && q.Content() == old(q.Content())
      ensures me.key == old(me.key) - duration
    {
      me.key := me.key - duration;
    }

    method ReleaseAndCharge(me: Node, duration: int) returns (ghost j: nat)
      requires Valid() && q.line != [] && me == q.line[0]
      modifies q, q.line, q.sec
      ensures Valid()
      ensures j == old(Fts.FirstOpen(Snapshot(), q.line[1..]))
      ensures q.Content() == Outcome(old(q.Content()), j)
      ensures forall i :: 0 <= i < |old(q.line)| ==>
        old(q.line)[i].key == (if 1 <= i <= j then Fts.DEFAULT_REFILL_WINDOW else old(q.line[i].key))
                              - (if i == 0 then duration else 0)
      ensures forall n :: n in old(q.sec) ==> n.key == old(n.key)
    {
      j := Release(me);
      Charge(me, duration);
    }

    /** The lock and every window are what module Fts computes from state `s`. */
    ghost predicate IsNext(s: Fts.State<Node>, duration: int)
      requires s.lock.Held?
      reads this, q, q.line, s.lock.owner, s.lock.q.sec, s.lock.q.main
    {
      var s' := Fts.Next(s, Fts.Release(|s.lock.q.main|, duration));
      && q.Content() == s'.lock
      && s.lock.owner.key == Fts.WindowOf(s', s.lock.owner)
      && (forall i :: 0 <= i < |s.lock.q.main| ==>
            s.lock.q.main[i].key == Fts.WindowOf(s', s.lock.q.main[i]))
      && (forall i :: 0 <= i < |s.lock.q.sec| ==>
            s.lock.q.sec[i].key == Fts.WindowOf(s', s.lock.q.sec[i]))
    }

    lemma NextReached(s: Fts.State<Node>, j: nat, duration: int)
      requires s.lock.Held? && j == Fts.FirstOpen(s, s.lock.q.main)
      requires var line, sec := [s.lock.owner] + s.lock.q.main, s.lock.q.sec;
               && Distinct(line) && (forall i, k :: 0 <= i < |line| && 0 <= k < |sec| ==> line[i] != sec[k])
               && (forall i :: 0 <= i < |line| ==> line[i] in s.window)
               && (forall i :: 0 <= i < |sec| ==> sec[i] in s.window && sec[i].key == s.window[sec[i]])
               && (forall i :: 0 <= i < |line| ==>
                     line[i].key == (if 1 <= i <= j then Fts.DEFAULT_REFILL_WINDOW else s.window[line[i]])
                                    - (if i == 0 then duration else 0))
      requires q.Content() == Outcome(s.lock, j)
      ensures IsNext(s, duration)
    {
      var line := [s.lock.owner] + s.lock.q.main;
      OutcomeIsNext(s, line, j, duration);
      assert line[0].key == Fts.WindowOf(Fts.Next(s, Fts.Release(|line| - 1, duration)), line[0]);
      forall i | 0 <= i < |s.lock.q.main|
        ensures s.lock.q.main[i].key
                == Fts.WindowOf(Fts.Next(s, Fts.Release(|line| - 1, duration)), s.lock.q.main[i])
      {
        assert line[i + 1] == s.lock.q.main[i];
      }
    }

    /** utafts_mutex_unlock: the release, then the charge for the section. */
    method Unlock(me: Node, duration: int)
      requires Valid() && q.line != [] && me == q.line[0]
      modifies q, q.line, q.sec
      ensures Valid()
      ensures IsNext(old(Snapshot()), duration)
    {
      ghost var s := Snapshot();
      assert [s.lock.owner] + s.lock.q.main == q.line;
      var j := ReleaseAndCharge(me, duration);
      NextReached(s, j, duration);
    }
  }

  ghost function Outcome(s: Lock<Node>, j: nat): Lock<Node>
    requires s.Held? && j <= |s.q.main|
  {
    if s.q.main == [] then
      (if s.q.sec == [] then Free else Held(s.q.sec[0], After(s.q, Oldest), 1))
    else
      var c := if j < |s.q.main| then Pick(j) else Oldest;
      Held(Granted(s.q, c), After(s.q, c), 1)
  }

  /** Membership in a prefix of the main queue is a matter of position. */
  lemma InPassed(line: seq<Node>, passed: seq<Node>, j: nat, i: nat)
    requires Distinct(line) && j < |line| && passed == line[1..j + 1] && i < |line|
    ensures line[i] in passed <==> 1 <= i <= j
  {
    if 1 <= i <= j { assert passed[i - 1] == line[i]; }
  }

  lemma OutcomeIsNext(s: Fts.State<Node>, line: seq<Node>, j: nat, duration: int)
    requires s.lock.Held? && line == [s.lock.owner] + s.lock.q.main && Distinct(line)
    requires forall i :: 0 <= i < |line| ==> line[i] in s.window
    requires j == Fts.FirstOpen(s, s.lock.q.main)
    ensures var s' := Fts.Next(s, Fts.Release(|line| - 1, duration));
            && s'.lock == Outcome(s.lock, j)
            && (forall i :: 0 <= i < |line| ==>
                  Fts.WindowOf(s', line[i])
                  == (if 1 <= i <= j then Fts.DEFAULT_REFILL_WINDOW else s.window[line[i]])
                     - (if i == 0 then duration else 0))
            && (forall n :: n in s.window && n !in line ==> Fts.WindowOf(s', n) == s.window[n])
  {
    var main := s.lock.q.main;
    assert main[..|line| - 1] == main;
    var passed := Fts.Passed(s, |line| - 1);
    assert passed == main[..j] == line[1..j + 1];
    var s' := Fts.Next(s, Fts.Release(|line| - 1, duration));
    forall i | 0 <= i < |line|
      ensures Fts.WindowOf(s', line[i])
              == (if 1 <= i <= j then Fts.DEFAULT_REFILL_WINDOW else s.window[line[i]])
                 - (if i == 0 then duration else 0)
    {
      InPassed(line, passed, j, i);
      assert i > 0 ==> line[0] != line[i];
    }
  }

  /** The scan: the first node with time left and the node before it; the windows it finds empty
      on the way are refilled. */
  method Scan(next: Node, ghost line: seq<Node>, ghost s: Fts.State<Node>)
    returns (cur: Node?, secTail: Node, ghost j: nat)
    requires Chain(line, null) && Distinct(line) && |line| > 1 && next == line[1]
    requires forall i :: 0 <= i < |line| ==> Fts.WindowOf(s, line[i]) == line[i].key
    modifies (set n | n in line)`key
    ensures j == Fts.FirstOpen(s, line[1..])
    ensures cur == if j + 1 < |line| then line[j + 1] else null
    ensures j > 0 ==> secTail == line[j]
    ensures forall i :: 0 <= i < |line| ==>
      line[i].key == if 1 <= i <= j then Fts.DEFAULT_REFILL_WINDOW else old(line[i].key)
  {
    cur, secTail, j := next, next, 0;
    if next.key <= 0 {
      next.key := Fts.DEFAULT_REFILL_WINDOW;
      cur, j := next.next, 1;
      while cur != null
        invariant 1 <= j < |line| && secTail == line[j]
        invariant cur == if j + 1 < |line| then line[j + 1] else null
        invariant forall i :: 1 <= i <= j ==> Fts.WindowOf(s, line[i]) <= 0
        invariant forall i :: 0 <= i < |line| ==>
          line[i].key == if 1 <= i <= j then Fts.DEFAULT_REFILL_WINDOW else old(line[i].key)
        decreases |line| - j
      {
        if cur.key > 0 {
          break;
        }
        cur.key := Fts.DEFAULT_REFILL_WINDOW;
        secTail := cur;
        cur := cur.next;
        j := j + 1;
      }
    }
    FirstOpenIs(s, line[1..], j);
  }
}
