/**
 The queue nodes as objects.  The four locks declare the same node: `next`, `secTail`, the grant
 word `spin` (here its two halves, `head` and `count`), and one number the release path looks
 at, which is `cri_len`, `remain_window` or `uxthread`.
 */
module QueueHeap {
  import opened TwoQueue

  class Node {
    var next: Node?
    var head: Node?     // pointer half of spin
    var count: nat      // counter half of spin
    var secTail: Node?
    var key: int

    constructor (key: int)
      ensures next == null && head == null && count == 0 && secTail == null && this.key == key
    {
      next, head, count, secTail := null, null, 0, null;
      this.key := key;
    }
  }

  /** Consecutive nodes are linked and the last one leads to `end`. */
  ghost predicate Chain(s: seq<Node>, end: Node?)
    reads s
  {
    forall i {:trigger s[i].next} :: 0 <= i < |s| ==> s[i].next == if i + 1 < |s| then s[i + 1] else end
  }

  ghost function Arrived(s: Lock<Node>, me: Node): Lock<Node> {
    match s
    case Free => Held(me, Queue([], []), 0)
    case Held(o, q, b) => Held(o, q.(main := q.main + [me]), b)
  }

  /** A pick of main[j], in terms of the line. */
  lemma AfterSplice(line: seq<Node>, sec: seq<Node>, j: nat)
    requires 0 < j < |line| - 1
    ensures var q := Queue(sec, line[1..]);
      && Granted(q, Pick(j)) == line[j + 1] == line[j + 1..][0]
      && After(q, Pick(j)) == Queue(sec + line[1..j + 1], line[j + 1..][1..])
  {
    assert line[1..][..j] == line[1..j + 1] && line[1..][j + 1..] == line[j + 1..][1..];
  }

  /** The waiting threads of one lock.  `line` is the holder followed by the main queue. */
  class WaitQueue {
    var tail: Node?
    ghost var line: seq<Node>
    ghost var sec: seq<Node>

    ghost predicate Has(n: Node)
      reads this
    {
      n in line || n in sec
    }

    /** Everything but the holder's grant word. */
    ghost predicate Shape()
      reads this, line, sec
    {
      && Distinct(line) && Distinct(sec)
      && (forall i, j :: 0 <= i < |line| && 0 <= j < |sec| ==> line[i] != sec[j])
      && Chain(line, null) && Chain(sec, null)
      && tail == (if line == [] then null else line[|line| - 1])
      && (line == [] ==> sec == [])
      && (sec != [] ==> sec[0].secTail == sec[|sec| - 1])
    }

    ghost predicate Valid()
      reads this, line, sec
    {
      Shape() && (line != [] ==> line[0].head == if sec == [] then null else sec[0])
    }

    /** Holder, queues and counter, as the queue discipline sees them. */
    ghost function Content(): Lock<Node>
      reads this, line
    {
      if line == [] then Free else Held(line[0], Queue(sec, line[1..]), line[0].count)
    }

    constructor ()
      ensures Valid() && line == [] && sec == []
    {
      tail, line, sec := null, [], [];
    }

    /** The lock path up to the wait: exchange the tail and link in behind it. */
    method Arrive(me: Node) returns (first: bool)
      requires Valid() && !Has(me)
      modifies this, me, line, sec
      ensures Valid() && line == old(line) + [me] && sec == old(sec)
      ensures Content() == Arrived(old(Content()), me)
      ensures first == (old(line) == [])
      ensures me.key == old(me.key) && me.count == 0
      ensures forall n :: n in old(line) || n in old(sec) ==>
        n.key == old(n.key) && n.count == old(n.count) && n.head == old(n.head)
    {
      me.next, me.head, me.count := null, null, 0;
      var prev := tail;
      tail := me;
      first := prev == null;
      if prev != null {
        prev.next := me;
      }
      line := line + [me];
    }

    /** A release that finds no successor: swap the tail back, to NULL or to the end of the
        secondary queue, whose head is then granted. */
    method Drain(me: Node, prevHead: Node?)
      requires Valid() && |line| == 1 && me == line[0] && prevHead == me.head
      modifies this, line, sec
      ensures Valid()
      ensures var q := old(Content()).q;
              Content() == if q.sec == [] then Free else Held(q.sec[0], After(q, Oldest), 1)
      ensures forall n :: n in old(line) || n in old(sec) ==> n.key == old(n.key)
    {
      if prevHead == null {
        tail := null;
      } else {
        tail := prevHead.secTail;
        prevHead.head, prevHead.count := null, 1;
      }
      line, sec := sec, [];
    }

    /** Moves the nodes from secHead to secTail to the secondary queue, so that the node behind
        secTail leads the main queue.  `j` is the number of nodes moved. */
    method Splice(me: Node, prevHead: Node?, secHead: Node, secTail: Node, ghost j: nat)
      returns (head: Node)
      requires Shape() && 0 < j < |line| - 1 && me == line[0]
      requires prevHead == (if sec == [] then null else sec[0])
      requires secHead == line[1] && secTail == line[j]
      modifies this, line, sec
      ensures Shape()
      ensures sec == old(sec) + old(line)[1..j + 1] && line == old(line)[j + 1..]
      ensures head == sec[0]
      ensures forall n :: n in old(line) || n in old(sec) ==>
        n.key == old(n.key) && n.count == old(n.count) && n.head == old(n.head)
    {
      ghost var oldLine, oldSec := line, sec;
      if prevHead != null {
        prevHead.secTail.next := secHead;
        head := prevHead;
      } else {
        head := secHead;
      }
      secTail.next := null;
      head.secTail := secTail;
      sec, line := sec + line[1..j + 1], line[j + 1..];
      forall i | 0 < i < |oldLine| && i != j
        ensures oldLine[i].next == if i + 1 < |oldLine| then oldLine[i + 1] else null
      {
        assert oldLine[i].next == old(oldLine[i].next);
      }
      forall i | 0 <= i < |oldSec|
        ensures oldSec[i].next == if i + 1 < |oldSec| then oldSec[i + 1] else oldLine[1]
      {
        assert i + 1 < |oldSec| ==> oldSec[i].next == old(oldSec[i].next);
      }
      SpliceChains(oldLine, oldSec, j);
    }

    /** After the stores of a splice both queues are chains again. */
    lemma SpliceChains(oldLine: seq<Node>, oldSec: seq<Node>, j: nat)
      requires 0 < j < |oldLine| - 1 && Distinct(oldLine) && Distinct(oldSec)
      requires forall i, k :: 0 <= i < |oldLine| && 0 <= k < |oldSec| ==> oldLine[i] != oldSec[k]
      requires sec == oldSec + oldLine[1..j + 1] && line == oldLine[j + 1..]
      requires forall i {:trigger oldLine[i].next} :: 0 < i < |oldLine| && i != j ==>
        oldLine[i].next == if i + 1 < |oldLine| then oldLine[i + 1] else null
      requires oldLine[j].next == null
      requires forall i {:trigger oldSec[i].next} :: 0 <= i < |oldSec| ==>
        oldSec[i].next == if i + 1 < |oldSec| then oldSec[i + 1] else oldLine[1]
      ensures Chain(line, null) && Chain(sec, null)
      ensures Distinct(line) && Distinct(sec)
      ensures forall i, k :: 0 <= i < |line| && 0 <= k < |sec| ==> line[i] != sec[k]
    {
      var n := |oldSec|;
      assert forall i :: 0 <= i < |line| ==> line[i] == oldLine[j + 1 + i];
      assert forall i :: 0 <= i < n ==> sec[i] == oldSec[i];
      assert forall i :: n <= i < |sec| ==> sec[i] == oldLine[i - n + 1];
      forall i | 0 <= i < |line|
        ensures line[i].next == if i + 1 < |line| then line[i + 1] else null
      {
        assert oldLine[j + 1 + i].next == line[i].next;
      }
      forall i | 0 <= i < |sec|
        ensures sec[i].next == if i + 1 < |sec| then sec[i + 1] else null
      {
        if i < n {
          assert oldSec[i].next == sec[i].next;
        } else {
          assert oldLine[i - n + 1].next == sec[i].next;
        }
      }
    }

    /** The holder drops out of the line; no memory changes. */
    ghost method Skip(me: Node)
      requires Shape() && |line| > 1 && me == line[0]
      modifies `line
      ensures Shape() && line == old(line)[1..]
    {
      line := line[1..];
    }

    /** Grants the head of the main queue; the secondary queue travels on in its word. */
    method GrantFirst(me: Node, next: Node, prevHead: Node?, count: nat)
      requires Valid() && |line| > 1 && me == line[0] && next == me.next
      requires prevHead == (if sec == [] then null else sec[0])
      modifies this, line, sec
      ensures Valid()
      ensures var q := old(Content()).q;
              Content() == Held(Granted(q, Pick(0)), After(q, Pick(0)), count)
      ensures forall n :: n in old(line) || n in old(sec) ==> n.key == old(n.key)
    {
      next.head, next.count := prevHead, count;
      line := line[1..];
    }

    /** Grants `cur` past the nodes from secHead to secTail, which are moved. */
    method GrantLater(me: Node, prevHead: Node?, secHead: Node, secTail: Node, cur: Node, count: nat, ghost j: nat)
      requires Valid() && 0 < j < |line| - 1 && me == line[0]
      requires prevHead == (if sec == [] then null else sec[0])
      requires secHead == line[1] && secTail == line[j] && cur == line[j + 1]
      modifies this, line, sec
      ensures Valid()
      ensures var q := old(Content()).q;
              Content() == Held(Granted(q, Pick(j)), After(q, Pick(j)), count)
      ensures forall n :: n in old(line) || n in old(sec) ==> n.key == old(n.key)
    {
      AfterSplice(line, sec, j);
      var head := Splice(me, prevHead, secHead, secTail, j);
      cur.head, cur.count := head, count;
    }

    /** After a flush the two queues are one chain. */
    lemma FlushChain(oldLine: seq<Node>, oldSec: seq<Node>)
      requires |oldLine| > 1 && oldSec != [] && Distinct(oldLine) && Distinct(oldSec)
      requires forall i, k :: 0 <= i < |oldLine| && 0 <= k < |oldSec| ==> oldLine[i] != oldSec[k]
      requires line == oldSec + oldLine[1..]
      requires forall i {:trigger oldLine[i].next} :: 0 < i < |oldLine| ==>
        oldLine[i].next == if i + 1 < |oldLine| then oldLine[i + 1] else null
      requires forall i {:trigger oldSec[i].next} :: 0 <= i < |oldSec| ==>
        oldSec[i].next == if i + 1 < |oldSec| then oldSec[i + 1] else oldLine[1]
      ensures Chain(line, null) && Distinct(line)
    {
      var n := |oldSec|;
      assert forall i :: 0 <= i < n ==> line[i] == oldSec[i];
      assert forall i :: n <= i < |line| ==> line[i] == oldLine[i - n + 1];
      forall i | 0 <= i < |line|
        ensures line[i].next == if i + 1 < |line| then line[i + 1] else null
      {
        if i < n {
          assert oldSec[i].next == line[i].next;
        } else {
          assert oldLine[i - n + 1].next == line[i].next;
        }
      }
    }

    /** Puts the secondary queue back in front of the main one. */
    method Flush(me: Node, next: Node, prevHead: Node)
      requires Shape() && |line| > 1 && me == line[0] && next == me.next && sec != [] && prevHead == sec[0]
      modifies this, line, sec
      ensures Shape() && sec == [] && line == old(sec) + old(line)[1..]
      ensures forall n :: n in old(line) || n in old(sec) ==> n.key == old(n.key)
    {
      ghost var oldLine, oldSec := line, sec;
      prevHead.secTail.next := next;
      line, sec := sec + line[1..], [];
      forall i | 0 < i < |oldLine|
        ensures oldLine[i].next == if i + 1 < |oldLine| then oldLine[i + 1] else null
      {
        assert oldLine[i].next == old(oldLine[i].next);
      }
      forall i | 0 <= i < |oldSec|
        ensures oldSec[i].next == if i + 1 < |oldSec| then oldSec[i + 1] else oldLine[1]
      {
        assert i + 1 < |oldSec| ==> oldSec[i].next == old(oldSec[i].next);
      }
      FlushChain(oldLine, oldSec);
    }

    /** Grants the oldest waiter, putting the secondary queue back in front of the main one. */
    method GrantOldest(me: Node, next: Node, prevHead: Node?, count: nat)
      requires Valid() && |line| > 1 && me == line[0] && next == me.next
      requires prevHead == (if sec == [] then null else sec[0])
      modifies this, line, sec
      ensures Valid()
      ensures var q := old(Content()).q;
              Content() == Held(Granted(q, Oldest), After(q, Oldest), count)
      ensures forall n :: n in old(line) || n in old(sec) ==> n.key == old(n.key)
    {
      if prevHead != null {
        Flush(me, next, prevHead);
        prevHead.head, prevHead.count := null, count;
      } else {
        next.head, next.count := null, count;
        line := line[1..];
      }
    }
  }
}
