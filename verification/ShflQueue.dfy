/**
 The lock of uxshfl.c: a byte that anybody may take, a queue whose first thread is the only one to
 spin on it, a bit that keeps newcomers from stealing the lock while the queue is in use, and
 waiting threads that shuffle the queue behind them. Every access is one step, and so are the three
 stores by which a shuffle moves a thread; steps of different threads interleave freely, also
 between two moves of one shuffle. A move is one by a leader that has passed somebody, which is what a
 shuffle does as long as no turn of it goes wrong; module ShflLeaders has the turns themselves.
 */
module ShflQueue {
  import opened TwoQueue
  import Shuffle

  datatype Pc =
    | Out
    | Arriving                 // the fast path failed, about to exchange tail
    | Announcing               // found an empty queue, about to disable stealing
    | Linking(pred: nat)
    | Waiting                  // until lstatus is set
    | Heading                  // first of the queue, until the lock byte is free
    | Taken                    // has the lock byte, about to look at next
    | Swinging                 // saw no successor, about to compare and swap tail
    | Reenabling               // emptied the queue, about to enable stealing
    | Expecting                // the swap failed, waiting for the successor to link itself
    | Passing(succ: nat)       // about to set the lstatus of succ
    | Inside

  datatype Thread = Thread(pc: Pc, next: Option<nat>, first: bool, ux: bool)

  datatype State = State(locked: bool, stealing: bool, tail: Option<nat>, th: seq<Thread>)

  datatype Label =
    | Steal(t: nat, ux: bool)  // the fast path: takes the lock byte if stealing is allowed
    | Try(t: nat)              // trylock: takes the lock byte if it is free
    | Exchange(t: nat)
    | Announce(t: nat)
    | Link(t: nat)
    | Observe(t: nat)
    | Take(t: nat)
    | Read(t: nat)
    | Swing(t: nat)
    | Reenable(t: nat)
    | Expect(t: nat)
    | Pass(t: nat)
    | Release(t: nat)
    | Move(t: nat, list: seq<nat>, l: nat, v: nat)

  predicate Names(s: State, t: nat) {
    t < |s.th|
  }

  predicate At(s: State, t: nat, pc: Pc) {
    t < |s.th| && s.th[t].pc == pc
  }

  predicate Enabled(s: State, a: Label) {
    Names(s, a.t) &&
    var me := s.th[a.t];
    match a
    case Steal(_, _) => me.pc == Out
    case Try(_) => me.pc == Out
    case Exchange(_) => me.pc == Arriving
    case Announce(_) => me.pc == Announcing
    case Link(_) => me.pc.Linking? && Names(s, me.pc.pred)
    case Observe(_) => me.pc == Waiting && me.first
    case Take(_) => me.pc == Heading
    case Read(_) => me.pc == Taken
    case Swing(_) => me.pc == Swinging
    case Reenable(_) => me.pc == Reenabling
    case Expect(_) => me.pc == Expecting && me.next.Some?
    case Pass(_) => me.pc.Passing? && Names(s, me.pc.succ)
    case Release(_) => me.pc == Inside
    case Move(_, list, l, v) =>
      // the list from the leader on: ux threads already moved, others visited, and one to move
      && (me.pc == Waiting || me.pc == Heading)
      && l < v && v + 2 < |list| && list[0] == a.t && Linked(s, list)
      && (forall i :: 1 <= i <= l ==> s.th[list[i]].ux)
      && (forall i :: l < i <= v ==> !s.th[list[i]].ux)
      && s.th[list[v + 1]].ux
  }

  /** Following next from the first of the list gives the list. */
  predicate Linked(s: State, list: seq<nat>) {
    && (forall i :: 0 <= i < |list| ==> Names(s, list[i]))
    && forall i :: 0 <= i < |list| - 1 ==> LinkedAt(s, list, i)
  }

  predicate LinkedAt(s: State, list: seq<nat>, i: nat)
    requires i + 1 < |list| && Names(s, list[i])
  {
    s.th[list[i]].next == Some(list[i + 1])
  }

  function Put(s: State, t: nat, n: Thread): State
    requires Names(s, t)
  {
    s.(th := s.th[t := n])
  }

  function Goes(s: State, t: nat, pc: Pc): State
    requires Names(s, t)
  {
    Put(s, t, s.th[t].(pc := pc))
  }

  function SetNext(s: State, t: nat, next: nat): State
    requires Names(s, t)
  {
    Put(s, t, s.th[t].(next := Some(next)))
  }

  function Do(s: State, a: Label): State
    requires Enabled(s, a)
  {
    var t, me := a.t, s.th[a.t];
    match a
    case Steal(_, ux) =>
      if !s.locked && s.stealing then Goes(s, t, Inside).(locked := true)
      else Put(s, t, Thread(Arriving, None, false, ux))
    case Try(_) => if !s.locked then Goes(s, t, Inside).(locked := true) else s
    case Exchange(_) =>
      Goes(s, t, if s.tail == None then Announcing else Linking(s.tail.value)).(tail := Some(t))
    case Announce(_) => Goes(s, t, Heading).(stealing := false)
    case Link(_) =>
      var s' := Goes(s, t, Waiting);
      Put(s', me.pc.pred, s'.th[me.pc.pred].(next := Some(t)))
    case Observe(_) => Goes(s, t, Heading)
    case Take(_) => if !s.locked then Goes(s, t, Taken).(locked := true) else s
    case Read(_) => Goes(s, t, if me.next == None then Swinging else Passing(me.next.value))
    case Swing(_) => if s.tail == Some(t) then Goes(s, t, Reenabling).(tail := None) else Goes(s, t, Expecting)
    case Reenable(_) => Goes(s, t, Inside).(stealing := true)
    case Expect(_) => Goes(s, t, Passing(me.next.value))
    case Pass(_) =>
      var s' := Goes(s, t, Inside);
      Put(s', me.pc.succ, s'.th[me.pc.succ].(first := true))
    case Release(_) => Goes(s, t, Out).(locked := false)
    case Move(_, list, l, v) =>
      // prev->next = next; curr->next = last->next; last->next = curr
      SetNext(SetNext(SetNext(s, list[v], list[v + 2]), list[v + 1], list[l + 1]), list[l], list[v + 1])
  }

  ghost predicate Init(s: State) {
    !s.locked && s.stealing && s.tail == None && forall t: nat :: Names(s, t) ==> At(s, t, Out)
  }

  predicate Joins(a: Label) {
    a.Exchange?
  }

  predicate Leaves(s: State, a: Label) {
    a.Pass? || (a.Swing? && s.tail == Some(a.t))
  }

  function IndexOf(q: seq<nat>, t: nat): (k: nat)
    ensures k <= |q| && (k < |q| ==> q[k] == t)
  {
    if q == [] || q[0] == t then 0 else 1 + IndexOf(q[1..], t)
  }

  /** The queue: who exchanged tail and has not left, in the order of the list. */
  function QueueAfter(s: State, a: Label, q: seq<nat>): seq<nat> {
    if Joins(a) then q + [a.t]
    else if Leaves(s, a) && q != [] then q[1..]
    else if a.Move? then MovedBehind(q, IndexOf(q, a.t), a.l, a.v)
    else q
  }

  /** The move behind the leader at `at`. */
  function MovedBehind(q: seq<nat>, at: nat, l: nat, v: nat): seq<nat> {
    if l < v && at + v + 1 < |q| then Shuffle.Moved(q, at + l, at + v) else q
  }

  // ----- The queue in memory -------------------------------------------------------------

  predicate IsFirst(n: Thread) {
    || n.pc.Announcing? || n.pc.Heading? || n.pc.Taken? || n.pc.Swinging? || n.pc.Expecting? || n.pc.Passing?
    || (n.pc.Waiting? && n.first)
  }

  predicate IsLater(n: Thread, pred: nat, link: Option<nat>, t: nat) {
    !n.first && ((n.pc == Linking(pred) && link == None) || (n.pc == Waiting && link == Some(t)))
  }

  predicate Place(s: State, q: seq<nat>, i: nat)
    requires i < |q|
  {
    && Names(s, q[i])
    && if i == 0 then IsFirst(s.th[q[0]])
       else Names(s, q[i - 1]) && IsLater(s.th[q[i]], q[i - 1], s.th[q[i - 1]].next, q[i])
  }

  predicate Outside(s: State, t: nat) {
    Names(s, t) ==>
      s.th[t].pc.Out? || s.th[t].pc.Reenabling? || s.th[t].pc.Inside?
      || (s.th[t].pc.Arriving? && s.th[t].next == None && !s.th[t].first)
  }

  ghost predicate Shape(s: State, q: seq<nat>) {
    && Distinct(q)
    && s.tail == (if q == [] then None else Some(q[|q| - 1]))
    && (q != [] ==> Names(s, q[|q| - 1]) && s.th[q[|q| - 1]].next == None)
    && (forall i: nat :: i < |q| ==> Place(s, q, i))
    && (forall t: nat :: t !in q ==> Outside(s, t))
  }

  /** What an owner that found its successor, or failed to empty the queue, knows. */
  predicate Informed(s: State, t: nat) {
    Names(s, t) ==>
      && (s.th[t].pc.Passing? ==> s.th[t].next == Some(s.th[t].pc.succ))
      && (s.th[t].pc.Expecting? ==> s.tail != Some(t))
  }

  // ----- The lock byte and the bit ---------------------------------------------------------

  predicate Holds(s: State, t: nat) {
    Names(s, t) &&
    var pc := s.th[t].pc;
    pc.Taken? || pc.Swinging? || pc.Reenabling? || pc.Expecting? || pc.Passing? || pc.Inside?
  }

  ghost predicate OnlyHolder(s: State, h: nat) {
    Holds(s, h) && forall t: nat :: Holds(s, t) ==> t == h
  }

  ghost predicate NoHolder(s: State) {
    forall t: nat :: !Holds(s, t)
  }

  ghost predicate Exclusive(s: State) {
    if s.locked then exists h: nat :: OnlyHolder(s, h) else NoHolder(s)
  }

  /** Somebody has emptied the queue and has not enabled stealing yet. */
  ghost predicate Pending(s: State) {
    exists t: nat :: At(s, t, Reenabling)
  }

  /** The first of the queue has disabled stealing. */
  predicate Announced(s: State, q: seq<nat>) {
    q != [] && Names(s, q[0]) && !s.th[q[0]].pc.Announcing?
  }

  /** Whether stealing was disabled while somebody was about to enable it. */
  ghost function Raced(s: State, a: Label, raced: bool): bool {
    if a.Announce? then Pending(s) else raced
  }

  ghost predicate BitFits(s: State, q: seq<nat>, raced: bool) {
    Announced(s, q) ==> (s.stealing <==> raced && !Pending(s)) && (Pending(s) ==> raced)
  }

  ghost predicate Inv(s: State, q: seq<nat>, raced: bool) {
    && Shape(s, q)
    && (forall t: nat :: Informed(s, t))
    && Exclusive(s)
    && BitFits(s, q, raced)
  }

  // ----- Each step keeps it ------------------------------------------------------------

  lemma {:induction false} PlaceOf(s: State, q: seq<nat>, t: nat) returns (k: nat)
    requires Shape(s, q) && Names(s, t)
    ensures k < |q| ==> q[k] == t && Place(s, q, k)
    ensures k >= |q| ==> t !in q && Outside(s, t)
  {
    if k0: nat :| k0 < |q| && q[k0] == t {
      k := k0;
      assert Place(s, q, k);
    } else {
      k := |q|;
      assert t !in q;
      assert Outside(s, t);
    }
  }

  lemma QuietStepKeepsShape(s: State, a: Label, q: seq<nat>)
    requires Shape(s, q) && Informed(s, a.t) && Enabled(s, a) && !Joins(a) && !Leaves(s, a) && !a.Move?
    ensures Shape(Do(s, a), q)
  {
    var s' := Do(s, a);
    var k := PlaceOf(s, q, a.t);
    forall i: nat | i < |q| ensures Place(s', q, i) {
      assert Place(s, q, i);
    }
    forall t: nat | t !in q ensures Outside(s', t) {
      assert Outside(s, t);
    }
  }

  lemma JoinKeepsShape(s: State, a: Label, q: seq<nat>)
    requires Shape(s, q) && Enabled(s, a) && Joins(a)
    ensures Shape(Do(s, a), q + [a.t])
  {
    var s', q' := Do(s, a), q + [a.t];
    var k := PlaceOf(s, q, a.t);
    assert a.t !in q;
    forall i: nat | i < |q'| ensures Place(s', q', i) {
      if i < |q| {
        assert Place(s, q, i);
      }
    }
    forall t: nat | t !in q' ensures Outside(s', t) {
      assert Outside(s, t);
    }
  }

  lemma LeaveKeepsShape(s: State, a: Label, q: seq<nat>)
    requires Shape(s, q) && Informed(s, a.t) && Enabled(s, a) && Leaves(s, a)
    ensures q != [] && q[0] == a.t
    ensures a.Pass? ==> |q| > 1 && q[1] == s.th[a.t].pc.succ
    ensures Shape(Do(s, a), q[1..])
  {
    var k := PlaceOf(s, q, a.t);
    var s', q' := Do(s, a), q[1..];
    assert q == [q[0]] + q';
    assert |q| > 1 ==> Place(s, q, 1);
    forall i: nat | i < |q'| ensures Place(s', q', i) {
      assert Place(s, q, i + 1);
    }
    forall t: nat | t !in q' ensures Outside(s', t) {
      if t != a.t {
        assert Outside(s, t);
      }
    }
  }

  lemma {:induction false} IndexIs(q: seq<nat>, k: nat)
    requires Distinct(q) && k < |q|
    ensures IndexOf(q, q[k]) == k
  {
    if k > 0 {
      var rest := q[1..];
      forall i, j | 0 <= i < j < |rest| ensures rest[i] != rest[j] {
        assert q[i + 1] != q[j + 1];
      }
      IndexIs(rest, k - 1);
    }
  }

  /** The list a leader follows is a part of the queue. */
  lemma {:induction false} ListIsSlice(s: State, q: seq<nat>, list: seq<nat>, at: nat, i: nat)
    requires Shape(s, q) && Linked(s, list) && at < |q| && i < |list| && list[0] == q[at]
    ensures at + i < |q| && q[at + i] == list[i]
  {
    if i > 0 {
      ListIsSlice(s, q, list, at, i - 1);
      assert LinkedAt(s, list, i - 1);
      assert at + i < |q| ==> Place(s, q, at + i);
    }
  }

  ghost predicate AllNamed(s: State, q: seq<nat>) {
    forall i :: 0 <= i < |q| ==> q[i] < |s.th|
  }

  /** What a move stores: three links, at three different nodes of the list. */
  ghost predicate Moves(s: State, s': State, list: seq<nat>, l: nat, v: nat) {
    && l < v && v + 2 < |list| && s' == s.(th := s'.th) && |s'.th| == |s.th|
    && (forall t: nat :: Names(s, t) ==> SameBut(s, s', t))
    && (forall t: nat :: Names(s, t) && t != list[l] && t != list[v] && t != list[v + 1] ==> s'.th[t] == s.th[t])
    && Names(s, list[l]) && s'.th[list[l]].next == Some(list[v + 1])
    && Names(s, list[v]) && s'.th[list[v]].next == Some(list[v + 2])
    && Names(s, list[v + 1]) && s'.th[list[v + 1]].next == Some(list[l + 1])
  }

  predicate SameBut(s: State, s': State, t: nat)
    requires Names(s, t) && Names(s', t)
  {
    s'.th[t] == s.th[t].(next := s'.th[t].next)
  }

  /** Who is where in the list of a move. */
  lemma {:induction false} MoveStands(s: State, a: Label, q: seq<nat>) returns (at: nat)
    requires Shape(s, q) && Enabled(s, a) && a.Move?
    ensures at == IndexOf(q, a.t) && at + |a.list| <= |q| && q[at] == a.t
    ensures forall i :: at <= i < at + |a.list| ==> q[i] == a.list[i - at]
    ensures AllNamed(s, q)
  {
    at := PlaceOf(s, q, a.t);
    IndexIs(q, at);
    ListIsSlice(s, q, a.list, at, |a.list| - 1);
    forall i | at <= i < at + |a.list| ensures q[i] == a.list[i - at] {
      ListIsSlice(s, q, a.list, at, i - at);
    }
    forall i | 0 <= i < |q| ensures q[i] < |s.th| {
      assert Place(s, q, i);
    }
  }

  lemma LinkedIsWaiting(s: State, q: seq<nat>, i: nat)
    requires Shape(s, q) && 0 < i < |q| && Names(s, q[i - 1]) && s.th[q[i - 1]].next == Some(q[i])
    ensures Names(s, q[i]) && s.th[q[i]].pc == Waiting
  {
    assert Place(s, q, i);
  }

  /** s' is s after the stores of the move a. */
  ghost predicate Stored(s: State, a: Label, s': State) {
    a.Move? && Moves(s, s', a.list, a.l, a.v)
  }

  lemma MoveStores(s: State, a: Label)
    requires Enabled(s, a) && a.Move? && Distinct(a.list)
    ensures Stored(s, a, Do(s, a))
  {
  }

  /** The same in the queue, of which the list is a part. */
  lemma MovesInQueue(s: State, s': State, q: seq<nat>, list: seq<nat>, at: nat, l: nat, v: nat)
    requires Moves(s, s', list, l, v) && at + |list| <= |q|
    requires forall i :: at <= i < at + |list| ==> q[i] == list[i - at]
    ensures Moves(s, s', q, at + l, at + v)
  {
    assert q[at + l] == list[l] && q[at + l + 1] == list[l + 1];
    assert q[at + v] == list[v] && q[at + v + 1] == list[v + 1] && q[at + v + 2] == list[v + 2];
  }

  /** The moved thread is a ux thread, those it passes are not, and all of them wait. */
  ghost predicate CanMove(s: State, q: seq<nat>, l: nat, v: nat) {
    && l < v && v + 2 < |q| && AllNamed(s, q)
    && (forall i :: l < i <= v + 2 ==> s.th[q[i]].pc == Waiting)
    && (forall i :: l < i <= v ==> !s.th[q[i]].ux)
    && s.th[q[v + 1]].ux
    && (s.th[q[l]].pc == Waiting || s.th[q[l]].pc == Heading)
  }

  ghost predicate IsMove(s: State, s': State, q: seq<nat>, l: nat, v: nat) {
    CanMove(s, q, l, v) && Moves(s, s', q, l, v)
  }

  lemma MovePasses(s: State, a: Label, q: seq<nat>, at: nat)
    requires Shape(s, q) && Enabled(s, a) && a.Move? && AllNamed(s, q)
    requires at + |a.list| <= |q| && forall i :: at <= i < at + |a.list| ==> q[i] == a.list[i - at]
    ensures CanMove(s, q, at + a.l, at + a.v)
  {
    var l, v := at + a.l, at + a.v;
    forall i | at < i <= v + 2 ensures s.th[q[i]].pc == Waiting {
      assert LinkedAt(s, a.list, i - at - 1);
      LinkedIsWaiting(s, q, i);
    }
    forall i | l < i <= v ensures !s.th[q[i]].ux {
      assert q[i] == a.list[i - at];
    }
    assert q[v + 1] == a.list[a.v + 1] && q[at] == a.t;
  }

  lemma {:induction false} MoveIs(s: State, a: Label, s': State, q: seq<nat>) returns (l: nat, v: nat)
    requires Shape(s, q) && Enabled(s, a) && Stored(s, a, s')
    ensures IsMove(s, s', q, l, v) && QueueAfter(s, a, q) == Shuffle.Moved(q, l, v)
  {
    var at := MoveStands(s, a, q);
    l, v := at + a.l, at + a.v;
    StandsForMove(s, a, s', q, at);
    QueueMoves(s, a, q, at);
    assert IsMove(s, s', q, l, v);
  }

  lemma StandsForMove(s: State, a: Label, s': State, q: seq<nat>, at: nat)
    requires Shape(s, q) && Enabled(s, a) && Stored(s, a, s') && AllNamed(s, q)
    requires at + |a.list| <= |q| && forall i :: at <= i < at + |a.list| ==> q[i] == a.list[i - at]
    ensures IsMove(s, s', q, at + a.l, at + a.v)
  {
    MovesInQueue(s, s', q, a.list, at, a.l, a.v);
    MovePasses(s, a, q, at);
  }

  lemma QueueMoves(s: State, a: Label, q: seq<nat>, at: nat)
    requires a.Move? && at == IndexOf(q, a.t)
    ensures QueueAfter(s, a, q) == MovedBehind(q, at, a.l, a.v)
  {
  }

  lemma {:induction false} MoveIsStored(s: State, a: Label, q: seq<nat>)
    requires Shape(s, q) && Enabled(s, a) && a.Move?
    ensures Stored(s, a, Do(s, a))
  {
    var at := MoveStands(s, a, q);
    PartIsDistinct(q, a.list, at);
    MoveStores(s, a);
  }

  lemma PartIsDistinct(q: seq<nat>, list: seq<nat>, at: nat)
    requires Distinct(q) && at + |list| <= |q| && forall i :: at <= i < at + |list| ==> q[i] == list[i - at]
    ensures Distinct(list)
  {
    forall i, j | 0 <= i < j < |list| ensures list[i] != list[j] {
      assert q[at + i] == list[i] && q[at + j] == list[j];
    }
  }

  /** The places after a move. */
  lemma MoveKeepsPlace(s: State, s': State, q: seq<nat>, l: nat, v: nat, i: nat)
    requires Shape(s, q) && IsMove(s, s', q, l, v) && i < |q|
    ensures |Shuffle.Moved(q, l, v)| == |q| && Place(s', Shuffle.Moved(q, l, v), i)
  {
    var q' := Shuffle.Moved(q, l, v);
    var j := Shuffle.Was(l, v, i);
    Shuffle.MovedAt(q, l, v, i);
    assert Place(s, q, j) && SameBut(s, s', q[j]);
    if i > 0 {
      Shuffle.MovedAt(q, l, v, i - 1);
    }
  }

  lemma MovedHasSame(q: seq<nat>, l: nat, v: nat, t: nat)
    requires l <= v && v + 1 < |q|
    ensures t in Shuffle.Moved(q, l, v) <==> t in q
  {
    var q' := Shuffle.Moved(q, l, v);
    if k :| 0 <= k < |q'| && q'[k] == t {
      Shuffle.MovedAt(q, l, v, k);
    }
    if k :| 0 <= k < |q| && q[k] == t {
      var i := if k <= l then k else if k == v + 1 then l + 1 else if k <= v then k + 1 else k;
      Shuffle.MovedAt(q, l, v, i);
    }
  }

  lemma MoveKeepsOutside(s: State, s': State, q: seq<nat>, l: nat, v: nat, t: nat)
    requires Shape(s, q) && Moves(s, s', q, l, v) && t !in Shuffle.Moved(q, l, v)
    ensures Outside(s', t)
  {
    MovedHasSame(q, l, v, t);
    assert Outside(s, t) && t != q[l] && t != q[v] && t != q[v + 1];
  }

  lemma MoveKeepsEnds(s: State, s': State, q: seq<nat>, l: nat, v: nat)
    requires Shape(s, q) && Moves(s, s', q, l, v)
    ensures var q' := Shuffle.Moved(q, l, v);
      && |q'| == |q| && q'[0] == q[0] && q'[|q| - 1] == q[|q| - 1]
      && s'.th[q[|q| - 1]].next == None
  {
    Shuffle.MovedAt(q, l, v, 0);
    Shuffle.MovedAt(q, l, v, |q| - 1);
  }

  lemma MovedQueueKeepsShape(s: State, s': State, q: seq<nat>, l: nat, v: nat)
    requires Shape(s, q) && IsMove(s, s', q, l, v)
    ensures Shape(s', Shuffle.Moved(q, l, v))
  {
    var q' := Shuffle.Moved(q, l, v);
    Shuffle.MovedKeepsDistinct(q, l, v);
    MoveKeepsEnds(s, s', q, l, v);
    forall i: nat | i < |q'| ensures Place(s', q', i) {
      MoveKeepsPlace(s, s', q, l, v, i);
    }
    forall t: nat | t !in q' ensures Outside(s', t) {
      MoveKeepsOutside(s, s', q, l, v, t);
    }
  }

  lemma StoredKeepsShape(s: State, a: Label, s': State, q: seq<nat>)
    requires Shape(s, q) && Enabled(s, a) && Stored(s, a, s')
    ensures Shape(s', QueueAfter(s, a, q))
    ensures QueueAfter(s, a, q) != [] && q != [] && QueueAfter(s, a, q)[0] == q[0]
  {
    var l, v := MoveIs(s, a, s', q);
    MovedQueueKeepsShape(s, s', q, l, v);
    MoveKeepsEnds(s, s', q, l, v);
  }

  lemma MoveKeepsShape(s: State, a: Label, q: seq<nat>)
    requires Shape(s, q) && Enabled(s, a) && a.Move?
    ensures Shape(Do(s, a), QueueAfter(s, a, q))
    ensures QueueAfter(s, a, q) != [] && q != [] && QueueAfter(s, a, q)[0] == q[0]
  {
    MoveIsStored(s, a, q);
    StoredKeepsShape(s, a, Do(s, a), q);
  }

  lemma StepKeepsShape(s: State, a: Label, q: seq<nat>)
    requires Shape(s, q) && Informed(s, a.t) && Enabled(s, a)
    ensures Shape(Do(s, a), QueueAfter(s, a, q))
    ensures Leaves(s, a) ==> q != [] && q[0] == a.t
  {
    if Joins(a) {
      JoinKeepsShape(s, a, q);
    } else if Leaves(s, a) {
      LeaveKeepsShape(s, a, q);
    } else if a.Move? {
      MoveKeepsShape(s, a, q);
    } else {
      QuietStepKeepsShape(s, a, q);
    }
  }

  lemma MoveKeepsInformed(s: State, s': State, q: seq<nat>, l: nat, v: nat, t: nat)
    requires IsMove(s, s', q, l, v) && Informed(s, t)
    ensures Informed(s', t)
  {
    assert Names(s, t) ==> SameBut(s, s', t);
  }

  lemma StepKeepsInformed(s: State, a: Label, q: seq<nat>, t: nat)
    requires Shape(s, q) && Informed(s, t) && Enabled(s, a)
    ensures Informed(Do(s, a), t)
  {
    if a.Move? {
      MoveIsStored(s, a, q);
      var l, v := MoveIs(s, a, Do(s, a), q);
      MoveKeepsInformed(s, Do(s, a), q, l, v, t);
    } else {
      var k := PlaceOf(s, q, a.t);
    }
  }

  /** The lock byte changes with its holder. */
  lemma HolderChanges(s: State, a: Label)
    requires Enabled(s, a)
    ensures a.Release? ==> Holds(s, a.t) && !Holds(Do(s, a), a.t) && !Do(s, a).locked
    ensures !a.Release? && s.locked ==> Do(s, a).locked && Holds(Do(s, a), a.t) == Holds(s, a.t)
    ensures !a.Release? && !s.locked && !Holds(s, a.t) ==> Do(s, a).locked == Holds(Do(s, a), a.t)
  {
  }

  lemma OthersHold(s: State, a: Label, u: nat)
    requires Enabled(s, a) && u != a.t
    ensures Holds(Do(s, a), u) == Holds(s, u)
  {
  }

  lemma StepKeepsExclusive(s: State, a: Label)
    requires Exclusive(s) && Enabled(s, a)
    ensures Exclusive(Do(s, a))
  {
    var s' := Do(s, a);
    forall u: nat | u != a.t ensures Holds(s', u) == Holds(s, u) {
      OthersHold(s, a, u);
    }
    HolderChanges(s, a);
    if s.locked {
      var h: nat :| OnlyHolder(s, h);
      if s'.locked {
        assert OnlyHolder(s', h);
      } else {
        assert Holds(s, a.t);
      }
    } else if s'.locked {
      assert !Holds(s, a.t);
      assert OnlyHolder(s', a.t);
    } else {
      assert !Holds(s, a.t);
    }
  }

  lemma MoveKeepsPcs(s: State, a: Label, q: seq<nat>)
    requires Shape(s, q) && Enabled(s, a) && a.Move?
    ensures var s' := Do(s, a);
      && s' == s.(th := s'.th) && |s'.th| == |s.th|
      && (forall t: nat :: Names(s, t) ==> SameBut(s, s', t))
      && q != [] && QueueAfter(s, a, q) != [] && QueueAfter(s, a, q)[0] == q[0]
  {
    MoveKeepsShape(s, a, q);
    MoveIsStored(s, a, q);
  }

  /** Whether stealing is disabled, from step to step. */
  lemma StepKeepsBit(s: State, a: Label, q: seq<nat>, raced: bool)
    requires Inv(s, q, raced) && Enabled(s, a)
    ensures BitFits(Do(s, a), QueueAfter(s, a, q), Raced(s, a, raced))
  {
    var s', q' := Do(s, a), QueueAfter(s, a, q);
    StepKeepsShape(s, a, q);
    var k := PlaceOf(s, q, a.t);
    if Announced(s', q') {
      PendingChanges(s, a);
      if !a.Announce? {
        StaysAnnounced(s, a, q);
      }
    }
  }

  /** Who has announced stays so, and a thread that is granted the first place finds it done. */
  lemma StaysAnnounced(s: State, a: Label, q: seq<nat>)
    requires Shape(s, q) && Informed(s, a.t) && Enabled(s, a) && !a.Announce?
    requires Announced(Do(s, a), QueueAfter(s, a, q))
    ensures Announced(s, q)
  {
    var k := PlaceOf(s, q, a.t);
    if Leaves(s, a) {
      LeaveKeepsShape(s, a, q);
    } else if a.Move? {
      MoveKeepsPcs(s, a, q);
    }
    assert q != [] ==> Place(s, q, 0);
  }

  lemma PendingStays(s: State, a: Label, u: nat)
    requires Enabled(s, a)
    ensures u != a.t ==> At(Do(s, a), u, Reenabling) == At(s, u, Reenabling)
    ensures !a.Reenable? && !a.Swing? ==> At(Do(s, a), a.t, Reenabling) == At(s, a.t, Reenabling)
    ensures a.Reenable? || (a.Swing? && s.tail != Some(a.t)) ==> !At(Do(s, a), a.t, Reenabling)
    ensures a.Reenable? || a.Swing? ==> Holds(s, a.t) && At(s, a.t, Reenabling) == a.Reenable?
  {
  }

  lemma PendingChanges(s: State, a: Label)
    requires Exclusive(s) && Enabled(s, a)
    ensures a.Reenable? ==> Pending(s) && !Pending(Do(s, a))
    ensures a.Swing? ==> !Pending(s) && (s.tail != Some(a.t) ==> !Pending(Do(s, a)))
    ensures !a.Reenable? && !a.Swing? ==> Pending(Do(s, a)) == Pending(s)
  {
    var s' := Do(s, a);
    PendingStays(s, a, a.t);
    if u: nat :| At(s, u, Reenabling) {
      assert Holds(s, u);
      PendingStays(s, a, u);
    }
    if u: nat :| At(s', u, Reenabling) {
      PendingStays(s, a, u);
      assert u != a.t ==> Holds(s, u);
    }
    assert Holds(s, a.t) ==> forall u: nat :: Holds(s, u) ==> u == a.t;
  }

  /** With the queue empty newcomers may steal, or are about to be allowed to again. */
  ghost predicate OpenWhenEmpty(s: State, q: seq<nat>) {
    q == [] ==> s.stealing || Pending(s)
  }

  lemma StepKeepsOpen(s: State, a: Label, q: seq<nat>, raced: bool)
    requires Inv(s, q, raced) && OpenWhenEmpty(s, q) && Enabled(s, a)
    ensures OpenWhenEmpty(Do(s, a), QueueAfter(s, a, q))
  {
    assert Informed(s, a.t);
    var k := PlaceOf(s, q, a.t);
    PendingChanges(s, a);
    if Leaves(s, a) {
      LeaveKeepsShape(s, a, q);
      if a.Swing? {
        assert At(Do(s, a), a.t, Reenabling);
      }
    } else if a.Move? {
      MoveKeepsShape(s, a, q);
    }
  }

  lemma StepKeepsInv(s: State, a: Label, q: seq<nat>, raced: bool)
    requires Inv(s, q, raced) && Enabled(s, a)
    ensures Inv(Do(s, a), QueueAfter(s, a, q), Raced(s, a, raced))
  {
    assert Informed(s, a.t);
    StepKeepsShape(s, a, q);
    StepKeepsExclusive(s, a);
    StepKeepsBit(s, a, q, raced);
    forall t: nat ensures Informed(Do(s, a), t) {
      StepKeepsInformed(s, a, q, t);
    }
  }

  // ----- Who passes whom -----------------------------------------------------------------

  /** The arrival order of the queue: joining is at the end, leaving leaves the others in order, and
      shuffling is not arriving. */
  function ArrivedAfter(s: State, a: Label, arrived: seq<nat>): seq<nat> {
    if Joins(a) then arrived + [a.t]
    else if Leaves(s, a) && IndexOf(arrived, a.t) < |arrived| then Without(arrived, IndexOf(arrived, a.t))
    else arrived
  }

  ghost predicate Before(q: seq<nat>, x: nat, y: nat) {
    exists i, j :: 0 <= i < j < |q| && q[i] == x && q[j] == y
  }

  predicate IsUx(s: State, t: nat) {
    Names(s, t) && s.th[t].ux
  }

  /** y came after x and stands before it. */
  ghost predicate Passed(arrived: seq<nat>, q: seq<nat>, x: nat, y: nat) {
    Before(arrived, x, y) && Before(q, y, x)
  }

  /** The queue is the arrival order but for ux threads that stand before non-ux ones. */
  ghost predicate Promoted(s: State, arrived: seq<nat>, q: seq<nat>) {
    && Distinct(arrived)
    && (forall t: nat :: t in arrived <==> t in q)
    && forall x: nat, y: nat :: Passed(arrived, q, x, y) ==> IsUx(s, y) && !IsUx(s, x)
  }

  lemma JoinPasses(arrived: seq<nat>, q: seq<nat>, t: nat, x: nat, y: nat)
    requires t !in arrived && t !in q && Passed(arrived + [t], q + [t], x, y)
    ensures Passed(arrived, q, x, y)
  {
    var i, j :| 0 <= i < j < |arrived + [t]| && (arrived + [t])[i] == x && (arrived + [t])[j] == y;
    var k, m :| 0 <= k < m < |q + [t]| && (q + [t])[k] == y && (q + [t])[m] == x;
    assert x == arrived[i] && y == q[k];
    assert x != t && y != t;
    assert arrived[j] == y && q[m] == x;
  }

  lemma LeavePasses(arrived: seq<nat>, q: seq<nat>, k: nat, x: nat, y: nat)
    requires k < |arrived| && q != [] && Passed(Without(arrived, k), q[1..], x, y)
    ensures Passed(arrived, q, x, y)
  {
    var w, r := Without(arrived, k), q[1..];
    var i, j :| 0 <= i < j < |w| && w[i] == x && w[j] == y;
    assert arrived[if i < k then i else i + 1] == x && arrived[if j < k then j else j + 1] == y;
    var m, n :| 0 <= m < n < |r| && r[m] == y && r[n] == x;
    assert q[m + 1] == y && q[n + 1] == x;
  }

  /** A move lets one thread pass some, and changes no other order. */
  lemma MovePassesSome(q: seq<nat>, l: nat, v: nat, x: nat, y: nat)
    requires l <= v && v + 1 < |q| && Before(Shuffle.Moved(q, l, v), y, x)
    ensures Before(q, y, x) || (y == q[v + 1] && exists i :: l < i <= v && q[i] == x)
  {
    var q' := Shuffle.Moved(q, l, v);
    var i, j :| 0 <= i < j < |q'| && q'[i] == y && q'[j] == x;
    Shuffle.MovedAt(q, l, v, i);
    Shuffle.MovedAt(q, l, v, j);
    var m, n := Shuffle.Was(l, v, i), Shuffle.Was(l, v, j);
    assert q[m] == y && q[n] == x;
  }

  lemma JoinKeepsPromoted(s: State, s': State, arrived: seq<nat>, q: seq<nat>, t: nat)
    requires Promoted(s, arrived, q) && t !in q
    requires forall u: nat :: IsUx(s', u) == IsUx(s, u)
    ensures Promoted(s', arrived + [t], q + [t])
  {
    assert t !in arrived;
    forall x: nat, y: nat | Passed(arrived + [t], q + [t], x, y) ensures IsUx(s', y) && !IsUx(s', x) {
      JoinPasses(arrived, q, t, x, y);
    }
  }

  lemma LeaveKeepsPromoted(s: State, s': State, arrived: seq<nat>, q: seq<nat>)
    requires Promoted(s, arrived, q) && q != [] && Distinct(q)
    requires forall u: nat :: IsUx(s', u) == IsUx(s, u)
    ensures IndexOf(arrived, q[0]) < |arrived| && Promoted(s', Without(arrived, IndexOf(arrived, q[0])), q[1..])
  {
    assert q[0] in arrived;
    FoundIn(arrived, q[0]);
    var k := IndexOf(arrived, q[0]);
    var w, q' := Without(arrived, k), q[1..];
    WithoutHas(arrived, k, 0);
    SameWithout(arrived, q, k);
    forall x: nat, y: nat | Passed(w, q', x, y) ensures IsUx(s', y) && !IsUx(s', x) {
      LeavePasses(arrived, q, k, x, y);
    }
  }

  /** Taking the first of q out of both leaves them with the same threads. */
  lemma SameWithout(p: seq<nat>, q: seq<nat>, k: nat)
    requires Distinct(p) && Distinct(q) && q != [] && k < |p| && p[k] == q[0]
    requires forall t: nat :: t in p <==> t in q
    ensures forall t: nat :: t in Without(p, k) <==> t in q[1..]
  {
    var q' := q[1..];
    assert q == [q[0]] + q';
    forall t: nat ensures t in Without(p, k) <==> t in q' {
      WithoutHas(p, k, t);
    }
  }

  lemma {:induction false} FoundIn(q: seq<nat>, t: nat)
    ensures t in q ==> IndexOf(q, t) < |q|
  {
    if q != [] && q[0] != t {
      FoundIn(q[1..], t);
    }
  }

  lemma WithoutHas(q: seq<nat>, k: nat, t: nat)
    requires Distinct(q) && k < |q|
    ensures t in Without(q, k) <==> t in q && t != q[k]
    ensures Distinct(Without(q, k))
  {
    var w := Without(q, k);
    forall i | 0 <= i < |w| ensures w[i] == q[if i < k then i else i + 1] {
    }
    if i :| 0 <= i < |q| && q[i] == t && i != k {
      assert w[if i < k then i else i - 1] == t;
    }
  }

  lemma MoveKeepsPromoted(s: State, s': State, arrived: seq<nat>, q: seq<nat>, l: nat, v: nat)
    requires Promoted(s, arrived, q) && IsMove(s, s', q, l, v)
    ensures Promoted(s', arrived, Shuffle.Moved(q, l, v))
  {
    var q' := Shuffle.Moved(q, l, v);
    forall t: nat ensures t in arrived <==> t in q' {
      MovedHasSame(q, l, v, t);
    }
    forall u: nat ensures IsUx(s', u) == IsUx(s, u) {
      assert Names(s, u) ==> SameBut(s, s', u);
    }
    forall x: nat, y: nat | Passed(arrived, q', x, y) ensures IsUx(s', y) && !IsUx(s', x) {
      MovePassesSome(q, l, v, x, y);
      assert Before(q, y, x) ==> Passed(arrived, q, x, y);
    }
  }

  lemma OtherKeepsUx(s: State, a: Label, q: seq<nat>, arrived: seq<nat>)
    requires Shape(s, q) && Promoted(s, arrived, q) && Enabled(s, a) && !Joins(a) && !Leaves(s, a) && !a.Move?
    ensures Promoted(Do(s, a), arrived, q)
  {
    var s' := Do(s, a);
    var k := PlaceOf(s, q, a.t);
    forall u: nat | u in q ensures IsUx(s', u) == IsUx(s, u) {
    }
    forall x: nat, y: nat | Passed(arrived, q, x, y) ensures IsUx(s', y) && !IsUx(s', x) {
      assert x in q && y in q;
    }
  }

  lemma StepKeepsPromoted(s: State, a: Label, q: seq<nat>, arrived: seq<nat>)
    requires Shape(s, q) && Informed(s, a.t) && Promoted(s, arrived, q) && Enabled(s, a)
    ensures Promoted(Do(s, a), ArrivedAfter(s, a, arrived), QueueAfter(s, a, q))
  {
    if Joins(a) {
      var k := PlaceOf(s, q, a.t);
      JoinKeepsPromoted(s, Do(s, a), arrived, q, a.t);
    } else if Leaves(s, a) {
      LeaveKeepsShape(s, a, q);
      LeaveKeepsPromoted(s, Do(s, a), arrived, q);
    } else if a.Move? {
      MoveIsStored(s, a, q);
      var l, v := MoveIs(s, a, Do(s, a), q);
      MoveKeepsPromoted(s, Do(s, a), arrived, q, l, v);
    } else {
      OtherKeepsUx(s, a, q, arrived);
    }
  }

  lemma SomebodyIn(p: seq<nat>)
    ensures p == [] || exists t: nat :: t in p
  {
    assert p != [] ==> p[0] in p;
  }

  lemma {:induction false} SameSize(p: seq<nat>, q: seq<nat>)
    requires Distinct(p) && Distinct(q) && forall t: nat :: t in p <==> t in q
    ensures |p| == |q|
  {
    if q == [] {
      SomebodyIn(p);
    } else {
      FoundIn(p, q[0]);
      var k := IndexOf(p, q[0]);
      SameWithout(p, q, k);
      WithoutHas(p, k, 0);
      var q' := q[1..];
      forall i, j | 0 <= i < j < |q'| ensures q'[i] != q'[j] {
        assert q[i + 1] != q[j + 1];
      }
      SameSize(Without(p, k), q');
    }
  }

  // ----- Progress ----------------------------------------------------------------------

  /** A step of a thread that is in the queue or has the lock; nobody arrives or steals. */
  predicate Helps(a: Label) {
    !a.Steal? && !a.Try? && !a.Exchange? && !a.Move?
  }

  /** At most k such steps, well chosen, let the first of the queue take the lock and leave the queue. */
  ghost predicate CanLeave(s: State, k: nat)
    decreases k
  {
    k > 0 && exists a ::
      Helps(a) && Enabled(s, a) && (Leaves(s, a) || CanLeave(Do(s, a), k - 1))
  }

  lemma TakesStep(s: State, a: Label, k: nat)
    requires Helps(a) && Enabled(s, a) && k > 0 && (Leaves(s, a) || CanLeave(Do(s, a), k - 1))
    ensures CanLeave(s, k)
  {
  }

  ghost predicate Orderly(s: State, q: seq<nat>) {
    q != [] && Shape(s, q) && (forall t: nat :: Informed(s, t)) && Exclusive(s)
  }

  lemma StepKeepsOrderly(s: State, a: Label, q: seq<nat>)
    requires Orderly(s, q) && Enabled(s, a) && Helps(a) && !Leaves(s, a)
    ensures Orderly(Do(s, a), q) && Place(s, q, 0) && Place(Do(s, a), q, 0)
  {
    assert Informed(s, a.t) && Place(s, q, 0);
    QuietStepKeepsShape(s, a, q);
    assert Place(Do(s, a), q, 0);
    StepKeepsExclusive(s, a);
    forall t: nat ensures Informed(Do(s, a), t) {
      StepKeepsInformed(s, a, q, t);
    }
  }

  /** How many steps the first of the queue, its successor and a holder outside need. */
  function ToGo(s: State, q: seq<nat>): nat
    requires q != [] && Place(s, q, 0)
  {
    match s.th[q[0]].pc
    case Passing(_) => 1
    case Expecting => if s.th[q[0]].next.Some? then 2 else 3
    case Swinging => 4
    case Taken => 5
    case Heading => if s.locked then 8 else 6
    case _ => 9
  }

  /** The next step towards that, when the first need not wait for the lock. */
  function NextStep(s: State, q: seq<nat>): Label
    requires q != [] && Place(s, q, 0)
  {
    var f := q[0];
    match s.th[f].pc
    case Passing(_) => Pass(f)
    case Expecting => if s.th[f].next.Some? || |q| == 1 then Expect(f) else Link(q[1])
    case Swinging => Swing(f)
    case Taken => Read(f)
    case Heading => Take(f)
    case Announcing => Announce(f)
    case _ => Observe(f)
  }

  lemma NextIsEnabled(s: State, q: seq<nat>)
    requires Orderly(s, q) && Place(s, q, 0)
    ensures Enabled(s, NextStep(s, q)) && Helps(NextStep(s, q))
  {
    assert Informed(s, q[0]) && (|q| > 1 ==> Place(s, q, 1));
  }

  lemma NextIsNearer(s: State, q: seq<nat>)
    requires Orderly(s, q) && Place(s, q, 0) && !(At(s, q[0], Heading) && s.locked)
    requires Enabled(s, NextStep(s, q)) && !Leaves(s, NextStep(s, q)) && Place(Do(s, NextStep(s, q)), q, 0)
    ensures ToGo(Do(s, NextStep(s, q)), q) < ToGo(s, q)
  {
    assert |q| > 1 ==> Place(s, q, 1);
  }

  lemma {:induction false} FirstLeaves(s: State, q: seq<nat>, k: nat)
    requires Orderly(s, q) && Place(s, q, 0) && k >= ToGo(s, q)
    ensures CanLeave(s, k)
    decreases k
  {
    if At(s, q[0], Heading) && s.locked {
      HolderReleases(s, q, k);
    } else {
      var a := NextStep(s, q);
      NextIsEnabled(s, q);
      if !Leaves(s, a) {
        StepKeepsOrderly(s, a, q);
        NextIsNearer(s, q);
        FirstLeaves(Do(s, a), q, k - 1);
      }
      TakesStep(s, a, k);
    }
  }

  /** A thread that has the lock while the first of the queue waits for it is outside the queue. */
  lemma HolderReleases(s: State, q: seq<nat>, k: nat)
    requires Orderly(s, q) && At(s, q[0], Heading) && s.locked && k >= 8
    ensures CanLeave(s, k)
    decreases k, 0
  {
    var h: nat :| OnlyHolder(s, h);
    var j := PlaceOf(s, q, h);
    var a := if s.th[h].pc == Inside then Release(h) else Reenable(h);
    StepKeepsOrderly(s, a, q);
    var s1 := Do(s, a);
    if a.Reenable? {
      StepKeepsOrderly(s1, Release(h), q);
      FirstLeaves(Do(s1, Release(h)), q, k - 2);
      TakesStep(s1, Release(h), k - 1);
    } else {
      FirstLeaves(s1, q, k - 1);
    }
    TakesStep(s, a, k);
  }
}
