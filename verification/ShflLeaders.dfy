/**
 Who shuffles in uxshfl.c. A waiting thread that was appointed, or the first of the queue if it was
 never counted, takes a turn at relinking the list behind it, goes on from where the turn before it
 stopped, and appoints the next. Here the calls of shuffle_waiters are steps of their own, with the
 locals they keep from one to the next, interleaved with the lock of module ShflQueue.
 */
module ShflLeaders {
  import opened TwoQueue
  import opened ShflQueue
  import Shuffle

  /** A call under way: its locals last, prev, curr and curr_locked_count. */
  datatype Turn = Turn(last: nat, prev: nat, curr: Option<nat>, count: nat)

  /** What a shuffle keeps in a node, and the call its thread is in. */
  datatype Mark = Mark(wcount: nat, sleader: bool, lastVisited: Option<nat>, turn: Option<Turn>)

  datatype Machine = Machine(lock: State, marks: seq<Mark>)

  datatype Action =
    | Base(a: Label)     // a step of the lock
    | Begin(t: nat)      // up to the loop; past the limit, instead, the next in line is appointed
    | Look(t: nat)       // reads the successor of prev, and ends the turn if there is none
    | Visit(t: nat)      // the rest of the loop body
    | Stop(t: nat)       // ends a turn that moved somebody: the lock is free, or the leader is first

  predicate Named(m: Machine, t: nat) {
    t < |m.marks| && t < |m.lock.th|
  }

  predicate InTurn(m: Machine, t: nat) {
    && Named(m, t) && m.marks[t].turn.Some?
    && Named(m, m.marks[t].turn.value.last) && Named(m, m.marks[t].turn.value.prev)
    && (m.marks[t].turn.value.curr.Some? ==> Named(m, m.marks[t].turn.value.curr.value))
  }

  predicate NamedLink(m: Machine, next: Option<nat>) {
    next.Some? ==> Named(m, next.value)
  }

  predicate May(m: Machine, a: Action) {
    match a
    case Base(b) => Named(m, b.t) && m.marks[b.t].turn.None? && !b.Move? && Enabled(m.lock, b)
    case Begin(t) =>
      && Named(m, t) && m.marks[t].turn.None? && NamedLink(m, m.lock.th[t].next)
      && (|| (m.lock.th[t].pc == Waiting && m.marks[t].sleader)
          || (m.lock.th[t].pc == Heading && (m.marks[t].wcount == 0 || m.marks[t].sleader)))
    case Look(t) => InTurn(m, t) && m.marks[t].turn.value.curr.None?
    case Visit(t) => InTurn(m, t) && m.marks[t].turn.value.curr.Some?
    case Stop(t) =>
      && InTurn(m, t) && m.marks[t].turn.value.curr.None? && m.marks[t].turn.value.last != t
      && (if m.lock.th[t].pc == Heading then !m.lock.locked else m.lock.th[t].first)
  }

  function SetMark(m: Machine, t: nat, mark: Mark): Machine
    requires Named(m, t)
  {
    m.(marks := m.marks[t := mark])
  }

  /** set_sleader. */
  function Appoint(m: Machine, t: nat, qend: Option<nat>): Machine
    requires Named(m, t)
  {
    SetMark(m, t, m.marks[t].(sleader := true, lastVisited := if qend == Some(t) then m.marks[t].lastVisited else qend))
  }

  function End(m: Machine, t: nat): Machine
    requires InTurn(m, t)
  {
    var p := m.marks[t].turn.value;
    Appoint(SetMark(m, t, m.marks[t].(turn := None)), p.last, Some(p.prev))
  }

  function DoBegin(m: Machine, t: nat): Machine
    requires May(m, Begin(t))
  {
    var me := m.marks[t];
    var count := if me.wcount == 0 then 1 else me.wcount;
    if count >= Shuffle.MAX_LOCK_COUNT then
      var m' := SetMark(m, t, me.(wcount := count, sleader := false));
      if m.lock.th[t].next.Some? then Appoint(m', m.lock.th[t].next.value, None) else m'
    else
      var prev := if me.lastVisited.Some? then me.lastVisited.value else t;
      SetMark(m, t, Mark(count, false, me.lastVisited, Some(Turn(t, prev, None, count))))
  }

  function DoLook(m: Machine, t: nat): Machine
    requires May(m, Look(t))
  {
    var p := m.marks[t].turn.value;
    var curr := m.lock.th[p.prev].next;
    if curr.None? then End(m, t) else SetMark(m, t, m.marks[t].(turn := Some(p.(curr := curr))))
  }

  function SetLink(s: State, t: nat, next: Option<nat>): State
    requires Names(s, t)
  {
    Put(s, t, s.th[t].(next := next))
  }

  /** prev->next = next; curr->next = last->next; last->next = curr */
  function Relink(s: State, last: nat, prev: nat, curr: nat): State
    requires Names(s, last) && Names(s, prev) && Names(s, curr)
  {
    var s1 := SetLink(s, prev, s.th[curr].next);
    var s2 := SetLink(s1, curr, s1.th[last].next);
    SetLink(s2, last, Some(curr))
  }

  /** curr is counted and becomes last. */
  function Promote(m: Machine, t: nat, prev: nat): Machine
    requires May(m, Visit(t))
  {
    var p := m.marks[t].turn.value;
    var c := p.curr.value;
    var m' := SetMark(m, c, m.marks[c].(wcount := (p.count + 1) % 0x1_0000));
    SetMark(m', t, m'.marks[t].(turn := Some(Turn(c, prev, None, p.count + 1))))
  }

  /** The turn relinks: a ux thread with a successor, behind one that is not. */
  predicate Relinks(m: Machine, t: nat)
    requires May(m, Visit(t))
  {
    var p := m.marks[t].turn.value;
    var c := p.curr.value;
    m.lock.tail != Some(c) && m.lock.th[c].ux && !m.lock.th[p.prev].ux && m.lock.th[c].next.Some?
  }

  function DoVisit(m: Machine, t: nat): Machine
    requires May(m, Visit(t))
  {
    var p := m.marks[t].turn.value;
    var c := p.curr.value;
    if m.lock.tail == Some(c) then End(m, t)
    else if !m.lock.th[c].ux then SetMark(m, t, m.marks[t].(turn := Some(p.(prev := c, curr := None))))
    else if m.lock.th[p.prev].ux then Promote(m, t, c)
    else if m.lock.th[c].next.None? then End(m, t)
    else Promote(m, t, p.prev).(lock := Relink(m.lock, p.last, p.prev, c))
  }

  function Perform(m: Machine, a: Action): Machine
    requires May(m, a)
  {
    match a
    case Base(b) =>
      var s' := Do(m.lock, b);
      Machine(s', if b.Steal? && s'.th[b.t].pc == Arriving then m.marks[b.t := Mark(0, false, None, None)] else m.marks)
    case Begin(t) => DoBegin(m, t)
    case Look(t) => DoLook(m, t)
    case Visit(t) => DoVisit(m, t)
    case Stop(t) => End(m, t)
  }

  /** The turn that goes wrong: it relinks before anybody was passed. */
  predicate Bad(m: Machine, a: Action) {
    a.Visit? && May(m, a) && Relinks(m, a.t) && m.marks[a.t].turn.value.prev == m.marks[a.t].turn.value.last
  }

  // ----- One leader at a time ------------------------------------------------------------

  predicate Leads(m: Machine, t: nat) {
    Named(m, t) && (m.marks[t].sleader || m.marks[t].turn.Some?)
  }

  /** The first k of the queue are counted; nobody but q[at] leads; nobody behind it, or never
      counted, has a place to go on from. */
  predicate MarkAt(m: Machine, q: seq<nat>, k: nat, at: nat, i: nat)
    requires i < |q|
  {
    && Named(m, q[i])
    && (m.marks[q[i]].wcount != 0 <==> i < k)
    && (Leads(m, q[i]) ==> i == at)
    && (i != at && (i >= k || i > at) ==> m.marks[q[i]].lastVisited == None)
  }

  predicate Apart(m: Machine, t: nat) {
    Named(m, t) ==>
      m.marks[t].turn == None && (m.lock.th[t].pc == Arriving ==> m.marks[t] == Mark(0, false, None, None))
  }

  predicate WaitsAs(s: State, t: nat, ux: bool) {
    Names(s, t) && s.th[t].pc == Waiting && s.th[t].ux == ux
  }

  ghost predicate Stretch(s: State, q: seq<nat>, lo: nat, hi: nat, ux: bool) {
    forall i: nat :: lo < i <= hi && i < |q| ==> WaitsAs(s, q[i], ux)
  }

  /** Appointed, and to go on behind q[v]. */
  ghost predicate Appointed(m: Machine, q: seq<nat>, k: nat, at: nat, v: nat)
    requires at < |q| && Named(m, q[at])
  {
    var me := m.marks[q[at]];
    && me.sleader && at <= k <= at + 1 && at <= v < |q|
    && me.lastVisited == (if v == at then None else Some(q[v]))
    && Stretch(m.lock, q, at, v, false)
  }

  /** In a turn that has moved up everyone to q[k - 1] and has come to q[v]. */
  ghost predicate Turning(m: Machine, q: seq<nat>, k: nat, at: nat, v: nat, p: Turn)
    requires at < |q| && Named(m, q[at])
  {
    var me := m.marks[q[at]];
    && !me.sleader && (m.lock.th[q[at]].pc == Waiting || m.lock.th[q[at]].pc == Heading)
    && at < k <= v + 1 && v < |q|
    && p.last == q[k - 1] && p.prev == q[v] && 1 <= p.count <= 49 + (k - 1 - at)
    && (v == at ==> me.lastVisited == None)
    && Stretch(m.lock, q, at, k - 1, true) && Stretch(m.lock, q, k - 1, v, false)
    && (p.curr.Some? ==> v + 1 < |q| && p.curr.value == q[v + 1] && At(m.lock, q[v + 1], Waiting))
  }

  ghost predicate LeaderAt(m: Machine, q: seq<nat>, k: nat, at: nat, v: nat)
    requires at < |q|
  {
    && Named(m, q[at])
    && match m.marks[q[at]].turn
       case None => Appointed(m, q, k, at, v)
       case Some(p) => Turning(m, q, k, at, v, p)
  }

  ghost predicate Baton(m: Machine, q: seq<nat>, k: nat, at: nat, v: nat) {
    && |m.marks| == |m.lock.th| && k <= |q| && at <= |q|
    && (forall i: nat :: i < |q| ==> MarkAt(m, q, k, at, i))
    && (forall t: nat :: t !in q ==> Apart(m, t))
    && (at < |q| ==> LeaderAt(m, q, k, at, v))
  }

  ghost predicate HasBaton(m: Machine, q: seq<nat>) {
    exists k: nat, at: nat, v: nat :: Baton(m, q, k, at, v)
  }

  // ----- Steps of the lock ---------------------------------------------------------------

  /** A step of the lock leaves the waiting threads waiting. */
  lemma WaitersStay(s: State, b: Label, q: seq<nat>, i: nat, ux: bool)
    requires Shape(s, q) && Enabled(s, b) && !b.Move? && 0 < i < |q|
    ensures WaitsAs(s, q[i], ux) ==> WaitsAs(Do(s, b), q[i], ux)
    ensures At(s, q[i], Waiting) ==> At(Do(s, b), q[i], Waiting)
  {
    assert Place(s, q, i);
  }

  /** What a step of the lock does to the marks and the threads of the queue: nothing. */
  ghost predicate MarksStay(m: Machine, m': Machine, q: seq<nat>) {
    && |m'.marks| == |m.marks| == |m.lock.th| == |m'.lock.th|
    && forall i: nat :: i < |q| && Named(m, q[i]) ==> m'.marks[q[i]] == m.marks[q[i]]
  }

  lemma BaseKeepsMarks(m: Machine, b: Label, q: seq<nat>)
    requires Shape(m.lock, q) && |m.marks| == |m.lock.th| && May(m, Base(b))
    ensures MarksStay(m, Perform(m, Base(b)), q)
  {
    var n := PlaceOf(m.lock, q, b.t);
  }

  /** Nor to a thread that is in a turn. */
  ghost predicate PcsStay(m: Machine, m': Machine, q: seq<nat>) {
    && (forall i: nat, ux: bool :: 0 < i < |q| && WaitsAs(m.lock, q[i], ux) ==> WaitsAs(m'.lock, q[i], ux))
    && (forall i: nat :: 0 < i < |q| && At(m.lock, q[i], Waiting) ==> At(m'.lock, q[i], Waiting))
    && (forall i: nat :: i < |q| ==> PcStays(m, m', q[i]))
  }

  predicate PcStays(m: Machine, m': Machine, t: nat) {
    Named(m, t) && m.marks[t].turn.Some? ==> Named(m', t) && m'.lock.th[t].pc == m.lock.th[t].pc
  }

  lemma BaseKeepsPcs(m: Machine, b: Label, q: seq<nat>)
    requires Shape(m.lock, q) && |m.marks| == |m.lock.th| && May(m, Base(b))
    ensures PcsStay(m, Perform(m, Base(b)), q)
  {
    var m' := Perform(m, Base(b));
    forall i: nat, ux: bool | 0 < i < |q| && WaitsAs(m.lock, q[i], ux) ensures WaitsAs(m'.lock, q[i], ux) {
      WaitersStay(m.lock, b, q, i, ux);
    }
    forall i: nat | 0 < i < |q| && At(m.lock, q[i], Waiting) ensures At(m'.lock, q[i], Waiting) {
      WaitersStay(m.lock, b, q, i, true);
    }
    BaseKeepsMarks(m, b, q);
    forall i: nat | i < |q| ensures PcStays(m, m', q[i]) {
      if Named(m, q[i]) && m.marks[q[i]].turn.Some? {
        OthersStay(m.lock, b, q, i);
      }
    }
  }

  lemma OthersStay(s: State, b: Label, q: seq<nat>, i: nat)
    requires Shape(s, q) && Enabled(s, b) && !b.Move? && i < |q| && b.t != q[i] && Names(s, q[i])
    ensures Names(Do(s, b), q[i]) && Do(s, b).th[q[i]].pc == s.th[q[i]].pc
  {
    assert Place(s, q, i);
  }

  lemma StretchStays(s: State, s': State, q: seq<nat>, lo: nat, hi: nat, ux: bool)
    requires Stretch(s, q, lo, hi, ux)
    requires forall i: nat, u: bool :: 0 < i < |q| && WaitsAs(s, q[i], u) ==> WaitsAs(s', q[i], u)
    ensures Stretch(s', q, lo, hi, ux)
  {
  }

  lemma LeaderStays(m: Machine, m': Machine, q: seq<nat>, k: nat, at: nat, v: nat)
    requires at < |q| && LeaderAt(m, q, k, at, v) && MarksStay(m, m', q) && PcsStay(m, m', q)
    ensures LeaderAt(m', q, k, at, v)
  {
    match m.marks[q[at]].turn
    case None =>
      StretchStays(m.lock, m'.lock, q, at, v, false);
    case Some(p) =>
      assert PcStays(m, m', q[at]);
      StretchStays(m.lock, m'.lock, q, at, k - 1, true);
      StretchStays(m.lock, m'.lock, q, k - 1, v, false);
  }

  lemma BaseKeepsLeader(m: Machine, b: Label, q: seq<nat>, k: nat, at: nat, v: nat)
    requires Shape(m.lock, q) && |m.marks| == |m.lock.th| && May(m, Base(b)) && at < |q|
    requires LeaderAt(m, q, k, at, v)
    ensures LeaderAt(Perform(m, Base(b)), q, k, at, v)
  {
    BaseKeepsMarks(m, b, q);
    BaseKeepsPcs(m, b, q);
    LeaderStays(m, Perform(m, Base(b)), q, k, at, v);
  }

  lemma QuietKeepsBaton(m: Machine, b: Label, q: seq<nat>, k: nat, at: nat, v: nat)
    requires Shape(m.lock, q) && May(m, Base(b)) && Baton(m, q, k, at, v)
    ensures Baton(Perform(m, Base(b)), q, k, at, v)
  {
    var m' := Perform(m, Base(b));
    BaseKeepsMarks(m, b, q);
    if at < |q| {
      BaseKeepsLeader(m, b, q, k, at, v);
    }
    forall i: nat | i < |q| ensures MarkAt(m', q, k, at, i) {
      assert MarkAt(m, q, k, at, i);
    }
    forall t: nat | t !in q ensures Apart(m', t) {
      assert Apart(m, t);
    }
  }

  lemma StretchShifts(s: State, q: seq<nat>, q': seq<nat>, lo: nat, hi: nat, ux: bool, d: nat)
    requires Stretch(s, q, lo, hi, ux) && d <= lo <= hi && |q'| + d <= |q|
    requires forall i: nat :: i < |q'| ==> q'[i] == q[i + d]
    ensures Stretch(s, q', lo - d, hi - d, ux)
  {
    forall i: nat | lo - d < i <= hi - d && i < |q'| ensures WaitsAs(s, q'[i], ux) {
      assert WaitsAs(s, q[i + d], ux);
    }
  }

  lemma LeaderShifts(m: Machine, q: seq<nat>, k: nat, at: nat, v: nat)
    requires 0 < at < |q| && LeaderAt(m, q, k, at, v)
    ensures k > 0 && v > 0 && LeaderAt(m, q[1..], k - 1, at - 1, v - 1)
  {
    match m.marks[q[at]].turn
    case None =>
      StretchShifts(m.lock, q, q[1..], at, v, false, 1);
    case Some(p) =>
      StretchShifts(m.lock, q, q[1..], at, k - 1, true, 1);
      StretchShifts(m.lock, q, q[1..], k - 1, v, false, 1);
  }

  /** The first leaves; if it was to lead, nobody is. */
  lemma {:induction false} LeaveKeepsBaton(m: Machine, b: Label, q: seq<nat>, k: nat, at: nat, v: nat)
    returns (k': nat, at': nat, v': nat)
    requires Shape(m.lock, q) && Informed(m.lock, b.t) && May(m, Base(b)) && Leaves(m.lock, b) && Baton(m, q, k, at, v)
    ensures q != [] && Baton(Perform(m, Base(b)), q[1..], k', at', v')
  {
    LeaveKeepsShape(m.lock, b, q);
    var m', q' := Perform(m, Base(b)), q[1..];
    QuietKeepsBaton(m, b, q, k, at, v);
    k' := if k > 0 then k - 1 else 0;
    at', v' := if at == 0 then |q'| else at - 1, if v > 0 then v - 1 else 0;
    if 0 < at < |q| {
      LeaderShifts(m', q, k, at, v);
    }
    forall i: nat | i < |q'| ensures MarkAt(m', q', k', at', i) {
      assert MarkAt(m', q, k, at, i + 1);
      assert MarkAt(m', q, k, at, 0);
    }
    forall t: nat | t !in q' ensures Apart(m', t) {
      if t == q[0] {
        assert Named(m', t);
      } else {
        assert t !in q;
      }
    }
  }

  /** Who comes is not counted, and has no place to go on from. */
  lemma {:induction false} JoinKeepsBaton(m: Machine, b: Label, q: seq<nat>, k: nat, at: nat, v: nat)
    returns (at': nat)
    requires Shape(m.lock, q) && May(m, Base(b)) && Joins(b) && Baton(m, q, k, at, v)
    ensures Baton(Perform(m, Base(b)), q + [b.t], k, at', v)
  {
    var m', q' := Perform(m, Base(b)), q + [b.t];
    var n := PlaceOf(m.lock, q, b.t);
    assert Apart(m, b.t);
    QuietKeepsBaton(m, b, q, k, at, v);
    at' := if at < |q| then at else |q'|;
    if at < |q| {
      BaseKeepsLeader(m, b, q, k, at, v);
      LeaderShows(m', q, q', k, at, v);
    }
    forall i: nat | i < |q'| ensures MarkAt(m', q', k, at', i) {
      if i < |q| {
        assert MarkAt(m', q, k, at, i);
      }
    }
  }

  lemma LeaderShows(m: Machine, q: seq<nat>, q': seq<nat>, k: nat, at: nat, v: nat)
    requires at < |q| <= |q'| && q'[..|q|] == q && LeaderAt(m, q, k, at, v)
    ensures LeaderAt(m, q', k, at, v)
  {
    assert forall i: nat :: i < |q| ==> q'[i] == q[i];
  }

  // ----- Steps of a turn -------------------------------------------------------------------

  /** Links of a thread that waits in line, and of one before it. */
  lemma LinkIs(s: State, q: seq<nat>, i: nat)
    requires Shape(s, q) && i < |q| && Names(s, q[i])
    ensures i + 1 == |q| ==> s.th[q[i]].next == None
    ensures i + 1 < |q| && At(s, q[i + 1], Waiting) ==> s.th[q[i]].next == Some(q[i + 1])
    ensures i + 1 < |q| && s.th[q[i]].next.Some? ==> s.th[q[i]].next == Some(q[i + 1]) && At(s, q[i + 1], Waiting)
  {
    if i + 1 < |q| {
      assert Place(s, q, i + 1);
    }
  }

  /** Only the one that may lead begins a turn. */
  lemma BeginIsLeader(m: Machine, t: nat, q: seq<nat>, k: nat, at: nat, v: nat) returns (i: nat)
    requires Shape(m.lock, q) && Baton(m, q, k, at, v) && May(m, Begin(t))
    ensures i < |q| && q[i] == t && (i == at || (i == 0 == k && at == |q|))
    ensures m.marks[t].lastVisited.None? || (i == at < |q| && at < v < |q| && m.marks[t].lastVisited == Some(q[v]))
  {
    i := PlaceOf(m.lock, q, t);
    assert MarkAt(m, q, k, at, i);
    if i > 0 {
      assert Place(m.lock, q, i);
    }
    if at < |q| {
      assert MarkAt(m, q, k, at, at);
    }
  }

  /** A turn begins where the one before it stopped. */
  lemma {:induction false} TurnBegins(m: Machine, t: nat, q: seq<nat>, k: nat, at: nat, v: nat)
    returns (k': nat, at': nat, v': nat)
    requires Shape(m.lock, q) && Baton(m, q, k, at, v) && May(m, Begin(t)) && m.marks[t].wcount < Shuffle.MAX_LOCK_COUNT
    ensures Baton(Perform(m, Begin(t)), q, k', at', v')
  {
    var m' := Perform(m, Begin(t));
    at' := BeginIsLeader(m, t, q, k, at, v);
    k', v' := at' + 1, if at == at' then v else at';
    assert Turning(m', q, k', at', v', m'.marks[t].turn.value);
    forall i: nat | i < |q| ensures MarkAt(m', q, k', at', i) {
      assert MarkAt(m, q, k, at, i);
    }
    forall u: nat | u !in q ensures Apart(m', u) {
      assert Apart(m, u);
    }
  }

  /** Past the limit, the next in line is to lead, if there is one. */
  lemma {:induction false} LeadIsPassed(m: Machine, t: nat, q: seq<nat>, k: nat, at: nat, v: nat)
    returns (at': nat)
    requires Shape(m.lock, q) && Baton(m, q, k, at, v) && May(m, Begin(t))
    requires m.marks[t].wcount >= Shuffle.MAX_LOCK_COUNT
    ensures Baton(Perform(m, Begin(t)), q, k, at', at')
  {
    var m' := Perform(m, Begin(t));
    var j := BeginIsLeader(m, t, q, k, at, v);
    assert MarkAt(m, q, k, at, j);
    assert j == at && k == at + 1;
    LinkIs(m.lock, q, at);
    at' := if m.lock.th[t].next.Some? then at + 1 else |q|;
    assert at' < |q| ==> MarkAt(m, q, k, at, at');
    forall i: nat | i < |q| ensures MarkAt(m', q, k, at', i) {
      assert MarkAt(m, q, k, at, i);
    }
    forall u: nat | u !in q ensures Apart(m', u) {
      assert Apart(m, u);
    }
    assert at' < |q| ==> Appointed(m', q, k, at', at');
  }

  lemma InTurnLeads(m: Machine, t: nat, q: seq<nat>, k: nat, at: nat, v: nat)
    requires Shape(m.lock, q) && Baton(m, q, k, at, v) && InTurn(m, t)
    ensures at < |q| && q[at] == t && Turning(m, q, k, at, v, m.marks[t].turn.value)
  {
    var i := PlaceOf(m.lock, q, t);
    assert i < |q| by { assert t !in q ==> Apart(m, t); }
    assert MarkAt(m, q, k, at, i);
  }

  /** The turn ends: the thread moved last, or the leader again, is to go on from prev. */
  lemma {:induction false} TurnEnds(m: Machine, t: nat, q: seq<nat>, k: nat, at: nat, v: nat) returns (at': nat)
    requires Shape(m.lock, q) && Baton(m, q, k, at, v) && InTurn(m, t)
    ensures k == at' + 1 && Baton(End(m, t), q, k, at', v)
  {
    InTurnLeads(m, t, q, k, at, v);
    var m' := End(m, t);
    at' := k - 1;
    forall i: nat | i < |q| ensures MarkAt(m', q, k, at', i) {
      assert MarkAt(m, q, k, at, i);
    }
    forall u: nat | u !in q ensures Apart(m', u) {
      assert Apart(m, u);
    }
    assert MarkAt(m, q, k, at, at');
    assert Appointed(m', q, k, at', v);
  }

  lemma TurnLooks(m: Machine, t: nat, q: seq<nat>, k: nat, at: nat, v: nat)
    requires Shape(m.lock, q) && Baton(m, q, k, at, v) && May(m, Look(t))
    requires m.lock.th[m.marks[t].turn.value.prev].next.Some?
    ensures Baton(Perform(m, Look(t)), q, k, at, v)
  {
    InTurnLeads(m, t, q, k, at, v);
    LinkIs(m.lock, q, v);
    var m' := Perform(m, Look(t));
    forall i: nat | i < |q| ensures MarkAt(m', q, k, at, i) {
      assert MarkAt(m, q, k, at, i);
    }
    forall u: nat | u !in q ensures Apart(m', u) {
      assert Apart(m, u);
    }
    assert Turning(m', q, k, at, v, m'.marks[t].turn.value);
  }

  predicate Passes(m: Machine, t: nat)
    requires May(m, Visit(t))
  {
    m.lock.tail != m.marks[t].turn.value.curr && !m.lock.th[m.marks[t].turn.value.curr.value].ux
  }

  predicate Adjoins(m: Machine, t: nat)
    requires May(m, Visit(t))
  {
    var p := m.marks[t].turn.value;
    m.lock.tail != p.curr && m.lock.th[p.curr.value].ux && m.lock.th[p.prev].ux
  }

  /** A thread that is not a ux thread is passed. */
  lemma TurnPasses(m: Machine, t: nat, q: seq<nat>, k: nat, at: nat, v: nat)
    requires Shape(m.lock, q) && Baton(m, q, k, at, v) && May(m, Visit(t)) && Passes(m, t)
    ensures Baton(Perform(m, Visit(t)), q, k, at, v + 1)
  {
    InTurnLeads(m, t, q, k, at, v);
    var m' := Perform(m, Visit(t));
    forall i: nat | i < |q| ensures MarkAt(m', q, k, at, i) {
      assert MarkAt(m, q, k, at, i);
    }
    forall u: nat | u !in q ensures Apart(m', u) {
      assert Apart(m, u);
    }
    assert Turning(m', q, k, at, v + 1, m'.marks[t].turn.value);
  }

  /** The counter fits 16 bits. */
  ghost predicate Few(m: Machine) {
    |m.lock.th| < 0x1_0000 - Shuffle.MAX_LOCK_COUNT
  }

  lemma CountFits(m: Machine, t: nat, q: seq<nat>, k: nat, at: nat, v: nat)
    requires Shape(m.lock, q) && Baton(m, q, k, at, v) && InTurn(m, t) && Few(m)
    ensures 0 < m.marks[t].turn.value.count + 1 < 0x1_0000
  {
    InTurnLeads(m, t, q, k, at, v);
    forall i: nat | i < |q| ensures q[i] < |m.lock.th| {
      assert Place(m.lock, q, i);
    }
    Pigeonhole(q, |m.lock.th|);
  }

  /** A ux thread right behind the others is one of them. */
  lemma TurnAdjoins(m: Machine, t: nat, q: seq<nat>, k: nat, at: nat, v: nat)
    requires Shape(m.lock, q) && Baton(m, q, k, at, v) && May(m, Visit(t)) && Adjoins(m, t) && Few(m)
    ensures Baton(Perform(m, Visit(t)), q, k + 1, at, v + 1)
  {
    InTurnLeads(m, t, q, k, at, v);
    CountFits(m, t, q, k, at, v);
    var k' := k + 1;
    assert v == k - 1 by { assert v > k - 1 ==> WaitsAs(m.lock, q[v], false); }
    var m' := Perform(m, Visit(t));
    forall i: nat | i < |q| ensures MarkAt(m', q, k', at, i) {
      assert MarkAt(m, q, k, at, i);
    }
    forall u: nat | u !in q ensures Apart(m', u) {
      assert Apart(m, u);
    }
    assert Turning(m', q, k', at, v + 1, m'.marks[t].turn.value);
  }

  // ----- A turn that relinks is a move of the lock ----------------------------------------

  function MoveOf(q: seq<nat>, k: nat, at: nat, v: nat): Label
    requires at < k <= v < v + 2 < |q|
  {
    Move(q[at], q[at..v + 3], k - 1 - at, v - at)
  }

  /** Threads that wait in line are linked. */
  lemma PartIsLinked(s: State, q: seq<nat>, lo: nat, hi: nat)
    requires Shape(s, q) && lo < hi <= |q| && Names(s, q[lo])
    requires forall i: nat :: lo < i < hi ==> At(s, q[i], Waiting)
    ensures Linked(s, q[lo..hi])
  {
    var list := q[lo..hi];
    forall i | 0 <= i < |list| ensures Names(s, list[i]) {
      assert i > 0 ==> At(s, q[lo + i], Waiting);
    }
    forall i | 0 <= i < |list| - 1 ensures LinkedAt(s, list, i) {
      LinkIs(s, q, lo + i);
      assert At(s, q[lo + i + 1], Waiting);
    }
  }

  lemma RelinkIsEnabled(m: Machine, t: nat, q: seq<nat>, k: nat, at: nat, v: nat)
    requires Shape(m.lock, q) && Baton(m, q, k, at, v) && May(m, Visit(t)) && Relinks(m, t) && !Bad(m, Visit(t))
    ensures at < |q| && q[at] == t && at < k <= v < v + 2 < |q|
    ensures Enabled(m.lock, MoveOf(q, k, at, v))
  {
    InTurnLeads(m, t, q, k, at, v);
    LinkIs(m.lock, q, v + 1);
    forall i: nat | at < i <= v + 2 ensures At(m.lock, q[i], Waiting) {
      assert i < k ==> WaitsAs(m.lock, q[i], true);
      assert k <= i <= v ==> WaitsAs(m.lock, q[i], false);
    }
    PartIsLinked(m.lock, q, at, v + 3);
    MoveOfIsEnabled(m.lock, q, k, at, v);
  }

  lemma MoveOfIsEnabled(s: State, q: seq<nat>, k: nat, at: nat, v: nat)
    requires at < k <= v < v + 2 < |q| && Linked(s, q[at..v + 3])
    requires Names(s, q[at]) && (s.th[q[at]].pc == Waiting || s.th[q[at]].pc == Heading)
    requires Stretch(s, q, at, k - 1, true) && Stretch(s, q, k - 1, v, false) && WaitsAs(s, q[v + 1], true)
    ensures Enabled(s, MoveOf(q, k, at, v))
  {
    var a := MoveOf(q, k, at, v);
    forall i | 1 <= i <= a.l ensures s.th[a.list[i]].ux {
      assert WaitsAs(s, q[at + i], true);
    }
    forall i | a.l < i <= a.v ensures !s.th[a.list[i]].ux {
      assert WaitsAs(s, q[at + i], false);
    }
  }

  /** The three stores are those of the move. */
  lemma RelinkIsStored(s: State, a: Label)
    requires a.Move? && Enabled(s, a) && Distinct(a.list)
    ensures a.l < a.v && a.v + 2 < |a.list|
    ensures Names(s, a.list[a.l]) && Names(s, a.list[a.v]) && Names(s, a.list[a.v + 1])
    ensures Relink(s, a.list[a.l], a.list[a.v], a.list[a.v + 1]) == Do(s, a)
  {
    assert LinkedAt(s, a.list, a.v + 1) && LinkedAt(s, a.list, a.l);
    assert a.list[a.l] != a.list[a.v] && a.list[a.v] != a.list[a.v + 1] && a.list[a.v + 1] != a.list[a.l];
  }

  lemma RelinkStores(m: Machine, t: nat)
    requires May(m, Visit(t)) && Relinks(m, t)
    ensures var p := m.marks[t].turn.value;
      Perform(m, Visit(t)).lock == Relink(m.lock, p.last, p.prev, p.curr.value)
  {
  }

  lemma RelinkIsMove(m: Machine, t: nat, q: seq<nat>, k: nat, at: nat, v: nat)
    requires Shape(m.lock, q) && Baton(m, q, k, at, v) && May(m, Visit(t)) && Relinks(m, t) && !Bad(m, Visit(t))
    ensures at < k <= v < v + 2 < |q| && Enabled(m.lock, MoveOf(q, k, at, v))
    ensures Perform(m, Visit(t)).lock == Do(m.lock, MoveOf(q, k, at, v))
  {
    InTurnLeads(m, t, q, k, at, v);
    RelinkIsEnabled(m, t, q, k, at, v);
    var a := MoveOf(q, k, at, v);
    assert a.list[a.l] == q[k - 1] && a.list[a.v] == q[v] && a.list[a.v + 1] == q[v + 1];
    PartIsDistinct(q, a.list, at);
    RelinkIsStored(m.lock, a);
    RelinkStores(m, t);
  }

  lemma MoveOfMoves(s: State, q: seq<nat>, k: nat, at: nat, v: nat)
    requires Distinct(q) && at < k <= v < v + 2 < |q|
    ensures QueueAfter(s, MoveOf(q, k, at, v), q) == Shuffle.Moved(q, k - 1, v)
  {
    IndexIs(q, at);
  }

  /** What a move leaves of the threads: all but the links. */
  ghost predicate KeepsThreads(s: State, s': State) {
    |s'.th| == |s.th| && forall t: nat :: Names(s, t) ==> SameBut(s, s', t)
  }

  lemma {:induction false} RelinkKeepsThreads(m: Machine, t: nat)
    requires May(m, Visit(t)) && Relinks(m, t)
    ensures KeepsThreads(m.lock, Perform(m, Visit(t)).lock)
  {
  }

  /** And of the marks: all but the count of the thread moved, and the turn. */
  ghost predicate KeepsMarks(m: Machine, m': Machine, t: nat, c: nat) {
    && |m'.marks| == |m.marks| && KeepsThreads(m.lock, m'.lock) && t != c && Named(m, t) && Named(m, c)
    && m'.marks[c].wcount != 0 && m'.marks[c] == m.marks[c].(wcount := m'.marks[c].wcount)
    && Leads(m', t) && m'.marks[t] == m.marks[t].(turn := m'.marks[t].turn)
    && forall u: nat :: Named(m, u) && u != c && u != t ==> m'.marks[u] == m.marks[u]
  }

  lemma RelinkKeepsMarks(m: Machine, t: nat)
    requires May(m, Visit(t)) && Relinks(m, t) && m.marks[t].turn.value.curr != Some(t)
    requires 0 < m.marks[t].turn.value.count + 1 < 0x1_0000
    ensures KeepsMarks(m, Perform(m, Visit(t)), t, m.marks[t].turn.value.curr.value)
  {
    RelinkKeepsThreads(m, t);
  }

  lemma MovedMark(m: Machine, m': Machine, q: seq<nat>, k: nat, at: nat, v: nat, i: nat)
    requires at < k <= v < v + 2 < |q| && i < |q| && Distinct(q)
    requires KeepsMarks(m, m', q[at], q[v + 1])
    requires forall j: nat :: j < |q| ==> MarkAt(m, q, k, at, j)
    ensures |Shuffle.Moved(q, k - 1, v)| == |q| && MarkAt(m', Shuffle.Moved(q, k - 1, v), k + 1, at, i)
  {
    Shuffle.MovedAt(q, k - 1, v, i);
    var j := Shuffle.Was(k - 1, v, i);
    assert MarkAt(m, q, k, at, j);
  }

  lemma StretchMoves(s: State, s': State, q: seq<nat>, q': seq<nat>, at: nat, k: nat, v: nat)
    requires at < k <= v < v + 2 < |q| && q' == Shuffle.Moved(q, k - 1, v) && KeepsThreads(s, s')
    requires Stretch(s, q, at, k - 1, true) && Stretch(s, q, k - 1, v, false) && WaitsAs(s, q[v + 1], true)
    ensures Stretch(s', q', at, k, true) && Stretch(s', q', k, v + 1, false)
  {
    forall i: nat | at < i <= v + 1 && i < |q'| ensures WaitsAs(s', q'[i], i <= k) {
      Shuffle.MovedAt(q, k - 1, v, i);
      var j := Shuffle.Was(k - 1, v, i);
      assert WaitsAs(s, q[j], i <= k);
      assert SameBut(s, s', q[j]);
    }
  }

  /** A ux thread behind others is moved up, past them. */
  lemma TurnRelinks(m: Machine, t: nat, q: seq<nat>, k: nat, at: nat, v: nat)
    requires Shape(m.lock, q) && Baton(m, q, k, at, v) && Few(m)
    requires May(m, Visit(t)) && Relinks(m, t) && !Bad(m, Visit(t))
    ensures at < k <= v < v + 2 < |q|
    ensures Baton(Perform(m, Visit(t)), Shuffle.Moved(q, k - 1, v), k + 1, at, v + 1)
  {
    RelinkIsMove(m, t, q, k, at, v);
    InTurnLeads(m, t, q, k, at, v);
    CountFits(m, t, q, k, at, v);
    assert q[at] != q[v + 1];
    RelinkKeepsMarks(m, t);
    var m', q' := Perform(m, Visit(t)), Shuffle.Moved(q, k - 1, v);
    RelinkLeads(m, m', t, q, q', k, at, v);
    MarksMove(m, m', q, q', k, at, v);
  }

  lemma MarksMove(m: Machine, m': Machine, q: seq<nat>, q': seq<nat>, k: nat, at: nat, v: nat)
    requires Distinct(q) && Baton(m, q, k, at, v) && at < k <= v < v + 2 < |q| && q' == Shuffle.Moved(q, k - 1, v)
    requires KeepsMarks(m, m', q[at], q[v + 1]) && |q'| == |q| && LeaderAt(m', q', k + 1, at, v + 1)
    ensures Baton(m', q', k + 1, at, v + 1)
  {
    var k' := k + 1;
    forall i: nat | i < |q| ensures MarkAt(m', q', k', at, i) {
      MovedMark(m, m', q, k, at, v, i);
    }
    forall u: nat | u !in q' ensures Apart(m', u) {
      MovedHasSame(q, k - 1, v, u);
      assert Apart(m, u);
      assert Named(m, u) ==> SameBut(m.lock, m'.lock, u);
    }
  }

  lemma RelinkLeads(m: Machine, m': Machine, t: nat, q: seq<nat>, q': seq<nat>, k: nat, at: nat, v: nat)
    requires at < k <= v < v + 2 < |q| && q' == Shuffle.Moved(q, k - 1, v) && Distinct(q)
    requires May(m, Visit(t)) && Relinks(m, t) && m' == Perform(m, Visit(t)) && |m.marks| == |m.lock.th|
    requires q[at] == t && Turning(m, q, k, at, v, m.marks[t].turn.value) && KeepsThreads(m.lock, m'.lock)
    ensures |q'| == |q| && LeaderAt(m', q', k + 1, at, v + 1)
  {
    StretchMoves(m.lock, m'.lock, q, q', at, k, v);
    Shuffle.MovedAt(q, k - 1, v, at);
    Shuffle.MovedAt(q, k - 1, v, k);
    Shuffle.MovedAt(q, k - 1, v, v + 1);
    assert SameBut(m.lock, m'.lock, t);
    assert q[at] != q[v + 1];
    assert Turning(m', q', k + 1, at, v + 1, m'.marks[t].turn.value);
  }

  // ----- Every step --------------------------------------------------------------------

  /** What a step is for module ShflQueue: a step of the lock, a move, or nothing. */
  ghost predicate Follows(s: State, q: seq<nat>, b: Option<Label>, s': State, q': seq<nat>) {
    match b
    case None => s' == s && q' == q
    case Some(b) => Enabled(s, b) && s' == Do(s, b) && q' == QueueAfter(s, b, q)
  }

  /** The queue after a step. */
  function LineAfter(m: Machine, a: Action, q: seq<nat>): seq<nat> {
    if a.Base? then QueueAfter(m.lock, a.a, q)
    else if a.Visit? && May(m, a) && Relinks(m, a.t) then
      var p := m.marks[a.t].turn.value;
      MovedUp(q, IndexOf(q, p.last), IndexOf(q, p.prev))
    else q
  }

  function MovedUp(q: seq<nat>, l: nat, v: nat): seq<nat> {
    if l <= v && v + 1 < |q| then Shuffle.Moved(q, l, v) else q
  }

  lemma {:induction false} BaseKeepsBaton(m: Machine, b: Label, q: seq<nat>, k: nat, at: nat, v: nat)
    returns (k': nat, at': nat, v': nat)
    requires Shape(m.lock, q) && Informed(m.lock, b.t) && Baton(m, q, k, at, v) && May(m, Base(b))
    ensures Baton(Perform(m, Base(b)), QueueAfter(m.lock, b, q), k', at', v')
  {
    k', at', v' := k, at, v;
    if Joins(b) {
      at' := JoinKeepsBaton(m, b, q, k, at, v);
    } else if Leaves(m.lock, b) {
      k', at', v' := LeaveKeepsBaton(m, b, q, k, at, v);
    } else {
      QuietKeepsBaton(m, b, q, k, at, v);
    }
  }

  lemma VisitDoes(m: Machine, t: nat)
    requires May(m, Visit(t))
    ensures !Relinks(m, t) ==> Perform(m, Visit(t)).lock == m.lock
    ensures !Relinks(m, t) && !Passes(m, t) && !Adjoins(m, t) ==> Perform(m, Visit(t)) == End(m, t)
  {
  }

  lemma {:induction false} QuietVisitKeepsBaton(m: Machine, t: nat, q: seq<nat>, k: nat, at: nat, v: nat)
    returns (k': nat, at': nat, v': nat)
    requires Shape(m.lock, q) && Baton(m, q, k, at, v) && May(m, Visit(t)) && !Relinks(m, t) && Few(m)
    ensures Baton(Perform(m, Visit(t)), q, k', at', v')
  {
    VisitDoes(m, t);
    k', at', v' := k, at, v;
    if Passes(m, t) {
      TurnPasses(m, t, q, k, at, v);
      v' := v + 1;
    } else if Adjoins(m, t) {
      TurnAdjoins(m, t, q, k, at, v);
      k', v' := k + 1, v + 1;
    } else {
      at' := TurnEnds(m, t, q, k, at, v);
    }
  }

  /** What a visit comes to, in the queue and in the marks. */
  ghost predicate Visited(m: Machine, m': Machine, q: seq<nat>, b: Option<Label>, q': seq<nat>) {
    Follows(m.lock, q, b, m'.lock, q') && HasBaton(m', q')
  }

  lemma RelinkIs(m: Machine, m': Machine, t: nat, q: seq<nat>, k: nat, at: nat, v: nat)
    requires Shape(m.lock, q) && Baton(m, q, k, at, v) && Few(m)
    requires May(m, Visit(t)) && !Bad(m, Visit(t)) && Relinks(m, t) && m' == Perform(m, Visit(t))
    ensures at < k <= v < v + 2 < |q|
    ensures Visited(m, m', q, Some(MoveOf(q, k, at, v)), LineAfter(m, Visit(t), q))
    ensures LineAfter(m, Visit(t), q) == Shuffle.Moved(q, k - 1, v)
    ensures Baton(m', Shuffle.Moved(q, k - 1, v), k + 1, at, v + 1)
  {
    RelinkIsMove(m, t, q, k, at, v);
    MoveOfMoves(m.lock, q, k, at, v);
    TurnRelinks(m, t, q, k, at, v);
    LineMoves(m, t, q, k, at, v);
  }

  lemma LineMoves(m: Machine, t: nat, q: seq<nat>, k: nat, at: nat, v: nat)
    requires Shape(m.lock, q) && Baton(m, q, k, at, v) && May(m, Visit(t)) && Relinks(m, t)
    requires at < k <= v < v + 2 < |q|
    ensures LineAfter(m, Visit(t), q) == Shuffle.Moved(q, k - 1, v)
  {
    InTurnLeads(m, t, q, k, at, v);
    IndexIs(q, k - 1);
    IndexIs(q, v);
  }

  lemma {:induction false} VisitKeepsBaton(m: Machine, m': Machine, t: nat, q: seq<nat>, k: nat, at: nat, v: nat)
    returns (b: Option<Label>)
    requires Shape(m.lock, q) && Baton(m, q, k, at, v) && Few(m)
    requires May(m, Visit(t)) && !Bad(m, Visit(t)) && m' == Perform(m, Visit(t))
    ensures Visited(m, m', q, b, LineAfter(m, Visit(t), q)) && (b.Some? ==> b.value.Move?)
  {
    if Relinks(m, t) {
      RelinkIs(m, m', t, q, k, at, v);
      b := Some(MoveOf(q, k, at, v));
    } else {
      b := None;
      VisitDoes(m, t);
      var k', at', v' := QuietVisitKeepsBaton(m, t, q, k, at, v);
    }
  }

  /** Every step but a turn that goes wrong keeps the marks in order, and is one of module ShflQueue:
      the same, a move, or none. */
  lemma {:induction false} StepKeepsBaton(m: Machine, a: Action, q: seq<nat>, k: nat, at: nat, v: nat)
    returns (b: Option<Label>)
    requires Shape(m.lock, q) && (forall t: nat :: Informed(m.lock, t)) && Baton(m, q, k, at, v)
    requires May(m, a) && !Bad(m, a) && Few(m)
    ensures Visited(m, Perform(m, a), q, b, LineAfter(m, a, q))
    ensures if a.Base? then b == Some(a.a) else b.Some? ==> b.value.Move?
  {
    b := None;
    var k', at', v';
    match a
    case Base(c) =>
      k', at', v' := BaseKeepsBaton(m, c, q, k, at, v);
      b := Some(c);
    case Begin(t) =>
      if m.marks[t].wcount < Shuffle.MAX_LOCK_COUNT {
        k', at', v' := TurnBegins(m, t, q, k, at, v);
      } else {
        at' := LeadIsPassed(m, t, q, k, at, v);
      }
    case Look(t) =>
      if m.lock.th[m.marks[t].turn.value.prev].next.Some? {
        TurnLooks(m, t, q, k, at, v);
      } else {
        at' := TurnEnds(m, t, q, k, at, v);
      }
    case Visit(t) =>
      b := VisitKeepsBaton(m, Perform(m, a), t, q, k, at, v);
    case Stop(t) =>
      at' := TurnEnds(m, t, q, k, at, v);
  }
}
