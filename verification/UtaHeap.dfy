/** uta.c's lock and unlock paths on real nodes, one call at a time, proved against module Uta. */
module UtaHeap {
  import opened TwoQueue
  import opened QueueHeap
  import Uta

  /** Nodes with the lengths they carry. */
  ghost function Tagged(ns: seq<Node>, key: map<Node, int>): (ws: seq<Uta.Waiter<Node>>)
    requires forall n :: n in ns ==> n in key
    ensures |ws| == |ns| && forall i :: 0 <= i < |ns| ==> ws[i] == Uta.Waiter(ns[i], key[ns[i]])
  {
    seq(|ns|, i requires 0 <= i < |ns| => Uta.Waiter(ns[i], key[ns[i]]))
  }

  ghost predicate Covered(s: Lock<Node>, key: map<Node, int>) {
    s.Held? ==>
      && s.owner in key
      && (forall n :: n in s.q.sec ==> n in key)
      && (forall n :: n in s.q.main ==> n in key)
  }

  ghost function TaggedLock(s: Lock<Node>, key: map<Node, int>): Lock<Uta.Waiter<Node>>
    requires Covered(s, key)
  {
    match s
    case Free => Free
    case Held(o, q, b) => Held(Uta.Waiter(o, key[o]), Queue(Tagged(q.sec, key), Tagged(q.main, key)), b)
  }

  /** Handing over commutes with reading the lengths. */
  lemma TaggedAfter(s: Lock<Node>, c: Choice, b: nat, key: map<Node, int>)
    requires s.Held? && Allowed(s.q, c) && Covered(s, key)
    ensures var t := TaggedLock(s, key);
            && Allowed(t.q, c)
            && Covered(Held(Granted(s.q, c), After(s.q, c), b), key)
            && TaggedLock(Held(Granted(s.q, c), After(s.q, c), b), key)
               == Held(Granted(t.q, c), After(t.q, c), b)
  {
    assert forall n :: n in s.q.Order() ==> n in key;
    match c
    case Oldest =>
      assert Tagged(s.q.Order(), key) == Tagged(s.q.sec, key) + Tagged(s.q.main, key);
    case Pick(j) =>
  }

  /** An arrival on nodes is an arrival in module Uta; `old` are the lengths known before. */
  lemma TaggedArrival(s: Lock<Node>, me: Node, before: map<Node, int>, key: map<Node, int>, thr: int)
    requires Covered(s, before) && me in key
    requires forall n :: n in before ==> n in key && key[n] == before[n]
    ensures Covered(Arrived(s, me), key)
    ensures Uta.State(TaggedLock(Arrived(s, me), key), thr)
            == Uta.Arrive(Uta.State(TaggedLock(s, before), thr), Uta.Waiter(me, key[me]))
  {
    if s.Held? {
      assert Tagged(s.q.sec, key) == Tagged(s.q.sec, before);
      assert Tagged(s.q.main + [me], key) == Tagged(s.q.main, before) + [Uta.Waiter(me, key[me])];
    }
  }

  /** A release on nodes, given the index the scan found (the length of the main queue if none):
      the new holder and queues, and the new threshold. */
  ghost function Outcome(s: Lock<Node>, j: nat): Lock<Node>
    requires s.Held? && j <= |s.q.main|
  {
    if s.q.main == [] then
      (if s.q.sec == [] then Free else Held(Granted(s.q, Oldest), After(s.q, Oldest), 1))
    else if s.batch < Uta.SHORT_BATCH_THRESHOLD && j < |s.q.main| then
      Held(Granted(s.q, Pick(j)), After(s.q, Pick(j)), s.batch + 1)
    else
      Held(Granted(s.q, Oldest), After(s.q, Oldest), 1)
  }

  ghost function OutcomeThreshold(s: Lock<Node>, thr: int, j: nat): int
    requires s.Held?
  {
    if s.q.main == [] || s.batch >= Uta.SHORT_BATCH_THRESHOLD then thr
    else if j < |s.q.main| then Uta.AfterPick(thr, s.batch)
    else thr + 1
  }

  lemma OutcomeIsRelease(s: Lock<Node>, key: map<Node, int>, thr: int)
    requires s.Held? && Covered(s, key)
    ensures var j := Uta.FirstShort(Tagged(s.q.main, key), thr);
            var s', thr' := Outcome(s, j), OutcomeThreshold(s, thr, j);
            && Covered(s', key)
            && Uta.State(TaggedLock(s', key), thr')
               == Uta.Release(Uta.State(TaggedLock(s, key), thr), |s.q.main|)
  {
    var j := Uta.FirstShort(Tagged(s.q.main, key), thr);
    assert Tagged(s.q.main, key)[..|s.q.main|] == Tagged(s.q.main, key);
    if s.q.Order() == [] {
    } else if s.q.main != [] && s.batch < Uta.SHORT_BATCH_THRESHOLD && j < |s.q.main| {
      TaggedAfter(s, Pick(j), s.batch + 1, key);
    } else {
      TaggedAfter(s, Oldest, 1, key);
    }
  }

  class UtaMutex {
    const q: WaitQueue
    var threshold: int

    ghost predicate Valid()
      reads this, q, q.line, q.sec
    {
      q.Valid()
    }

    ghost function Keys(): (key: map<Node, int>)
      reads this, q, q.line, q.sec
      ensures (forall n :: n in q.line ==> n in key) && (forall n :: n in q.sec ==> n in key)
      ensures forall n :: n in key ==> key[n] == n.key
    {
      map n | n in q.line + q.sec :: n.key
    }

    /** The lock as module Uta sees it. */
    ghost function Snapshot(): Uta.State<Node>
      reads this, q, q.line, q.sec
    {
      Uta.State(TaggedLock(q.Content(), Keys()), threshold)
    }

    constructor ()
      ensures Valid() && fresh(q) && Snapshot() == Uta.Init()
    {
      q := new WaitQueue();
      threshold := Uta.DEFAULT_SHORT_THRESHOLD;
    }

    /** The lengths known before are those of nodes that are still there. */
    ghost predicate StillHas(before: map<Node, int>)
      reads this, q, q.line, q.sec
    {
      forall n :: n in before ==> (n in q.line || n in q.sec) && before[n] == n.key
    }

    lemma {:induction false} Lengths() returns (key: map<Node, int>, now: Uta.State<Node>)
      ensures StillHas(key) && Covered(q.Content(), key)
      ensures now == Snapshot() && now == Uta.State(TaggedLock(q.Content(), key), threshold)
    {
      key, now := Keys(), Snapshot();
    }

    /** What the lengths known before say about the queues after an arrival. */
    lemma Joined(content: Lock<Node>, before: map<Node, int>, was: Uta.State<Node>, me: Node)
      requires Valid() && q.Content() == Arrived(content, me) && me in q.line && Covered(content, before)
      requires StillHas(before)
      requires was == Uta.State(TaggedLock(content, before), threshold)
      ensures Snapshot() == Uta.Arrive(was, Uta.Waiter(me, me.key))
    {
      TaggedArrival(content, me, before, Keys(), threshold);
    }

    /** __uta_lock_ux up to the wait: what module Uta says. */
    method Lock(me: Node) returns (first: bool)
      requires Valid() && !q.Has(me)
      modifies q, me, q.line, q.sec
      ensures Valid()
      ensures q.Content() == Arrived(old(q.Content()), me) && first == (old(q.line) == [])
      ensures Snapshot() == Uta.Arrive(old(Snapshot()), Uta.Waiter(me, me.key))
      ensures me.key == old(me.key) && me.count == 0
      ensures forall n :: n in old(q.line) || n in old(q.sec) ==> n.key == old(n.key)
    {
      ghost var content := q.Content();
      ghost var before, was := Lengths();
      first := q.Arrive(me);
      Joined(content, before, was, me);
    }

    /** What the scan of the main queue finds. */
    ghost function Found(): nat
      requires q.line != []
      reads this, q, q.line, q.sec
    {
      Uta.FirstShort(Tagged(q.line[1..], Keys()), threshold)
    }

    /** The scan: the first node shorter than the threshold and the node before it. */
    method FindShort(next: Node) returns (cur: Node?, secTail: Node, ghost j: nat)
      requires Valid() && |q.line| > 1 && next == q.line[1]
      ensures j == Found()
      ensures cur == if j + 1 < |q.line| then q.line[j + 1] else null
      ensures j > 0 ==> secTail == q.line[j]
    {
      cur, secTail, j := next, next, 0;
      ghost var main := Tagged(q.line[1..], Keys());
      if next.key >= threshold {
        cur, j := next.next, 1;
        while cur != null
          invariant 1 <= j <= |main| && secTail == q.line[j]
          invariant cur == if j < |main| then q.line[j + 1] else null
          invariant forall i :: 0 <= i < j ==> main[i].len >= threshold
          decreases |main| - j
        {
          if cur.key < threshold {
            break;
          }
          secTail := cur;
          cur := cur.next;
          j := j + 1;
        }
      }
      if j < |main| {
        Uta.FirstShortIs(main, threshold, j);
      }
    }

    /** Splices what the scan passed and grants what it found. */
    method GrantShort(me: Node, next: Node, prevHead: Node?, secTail: Node, cur: Node, batch: nat, ghost j: nat)
      requires Valid() && j + 1 < |q.line| && me == q.line[0] && next == me.next && prevHead == me.head
      requires cur == q.line[j + 1] && (j > 0 ==> secTail == q.line[j])
      modifies q, q.line, q.sec
      ensures Valid()
      ensures var s := old(q.Content());
              q.Content() == Held(Granted(s.q, Pick(j)), After(s.q, Pick(j)), batch + 1)
      ensures forall n :: n in old(q.line) || n in old(q.sec) ==> n.key == old(n.key)
    {
      if cur == next {
        q.GrantFirst(me, next, prevHead, batch + 1);
      } else {
        q.GrantLater(me, prevHead, next, secTail, cur, batch + 1, j);
      }
    }

    /** Whom to favour, if anyone, with the threshold adjusted accordingly. */
    method Decide(next: Node, batch: nat) returns (cur: Node?, secTail: Node, ghost j: nat)
      requires Valid() && |q.line| > 1 && next == q.line[1] && batch == q.line[0].count
      modifies this`threshold
      ensures threshold == OutcomeThreshold(q.Content(), old(threshold), old(Found()))
      ensures batch < Uta.SHORT_BATCH_THRESHOLD ==>
        && j == old(Found()) && (j > 0 ==> secTail == q.line[j])
        && cur == if j + 1 < |q.line| then q.line[j + 1] else null
      ensures batch >= Uta.SHORT_BATCH_THRESHOLD ==> cur == null
    {
      cur, secTail, j := null, next, 0;
      if batch < Uta.SHORT_BATCH_THRESHOLD {
        cur, secTail, j := FindShort(next);
        if cur != null {
          Adjust(batch);
        } else {
          threshold := threshold + 1;
        }
      }
    }

    /** The release with a successor: below the batch limit scan and grant, else the oldest. */
    method GrantNext(me: Node, next: Node)
      requires Valid() && |q.line| > 1 && me == q.line[0] && next == me.next
      modifies this, q, q.line, q.sec
      ensures Valid()
      ensures q.Content() == old(Outcome(q.Content(), Found()))
      ensures threshold == old(OutcomeThreshold(q.Content(), threshold, Found()))
      ensures forall n :: n in old(q.line) || n in old(q.sec) ==> n.key == old(n.key)
    {
      var batch, prevHead := me.count, me.head;
      ghost var s, found := q.Content(), Found();
      var cur, secTail, j := Decide(next, batch);
      assert q.Content() == s && |q.line| == |s.q.main| + 1;
      if cur != null {
        assert j == found < |s.q.main| && batch < Uta.SHORT_BATCH_THRESHOLD;
        GrantShort(me, next, prevHead, secTail, cur, batch, j);
      } else {
        assert batch >= Uta.SHORT_BATCH_THRESHOLD || found >= |s.q.main|;
        q.GrantOldest(me, next, prevHead, 1);
      }
    }

    /** __uta_mutex_unlock: the tail swap, the scan with its splice, or the flush. */
    method Release(me: Node)
      requires Valid() && q.line != [] && me == q.line[0]
      modifies this, q, q.line, q.sec
      ensures Valid()
      ensures q.Content() == old(Outcome(q.Content(), Found()))
      ensures threshold == old(OutcomeThreshold(q.Content(), threshold, Found()))
      ensures forall n :: n in old(q.line) || n in old(q.sec) ==> n.key == old(n.key)
    {
      if me.next == null {
        q.Drain(me, me.head);
      } else {
        GrantNext(me, me.next);
      }
    }

    /** uta_mutex_unlock, the queue part: what module Uta says. */
    method Unlock(me: Node)
      requires Valid() && q.line != [] && me == q.line[0]
      modifies this, q, q.line, q.sec
      ensures Valid()
      ensures Uta.MayRelease(old(Snapshot()), |old(q.line)| - 1)
      ensures Snapshot() == Uta.Release(old(Snapshot()), |old(q.line)| - 1)
    {
      ghost var keys := Keys();
      OutcomeIsRelease(q.Content(), keys, threshold);
      Release(me);
      KeysKept(keys);
    }

    lemma KeysKept(keys: map<Node, int>)
      requires forall n :: n in q.line || n in q.sec ==> n in keys && keys[n] == n.key
      ensures TaggedLock(q.Content(), Keys()) == TaggedLock(q.Content(), keys)
    {
    }

    /** Every ADJUST_FREQ-th pick lowers the threshold. */
    method Adjust(batch: nat)
      modifies this`threshold
      ensures threshold == Uta.AfterPick(old(threshold), batch)
    {
      if batch % Uta.ADJUST_FREQ == Uta.ADJUST_FREQ - 1 {
        threshold := threshold - 1;
      }
    }
  }
}
