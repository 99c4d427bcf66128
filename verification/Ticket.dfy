/**
 The ticket lock of ticket.c: two 32-bit counters that wrap around, read and written together as
 one 64-bit word only by trylock. Every access is one step, and steps of different threads
 interleave freely.
 */
module Ticket {
  import opened TwoQueue

  const WRAP: nat := 0x1_0000_0000

  datatype Pc =
    | Out
    | Trying(seen: nat)       // in trylock, has read request
    | Spinning(ticket: nat)   // in lock, has taken a ticket
    | Inside
    | Leaving(seen: nat)      // in unlock, has read grant

  datatype State = State(request: nat, grant: nat, pcs: seq<Pc>)

  datatype Label = Take(t: nat) | Look(t: nat) | Try(t: nat) | Swap(t: nat) | Load(t: nat) | Store(t: nat)

  predicate Enabled(s: State, a: Label) {
    a.t < |s.pcs| &&
    var pc := s.pcs[a.t];
    match a
    case Take(_) => pc.Out?
    case Try(_) => pc.Out?
    case Look(_) => pc.Spinning?
    case Swap(_) => pc.Trying?
    case Load(_) => pc.Inside?
    case Store(_) => pc.Leaving?
  }

  function Becomes(s: State, t: nat, pc: Pc): State
    requires t < |s.pcs|
  {
    s.(pcs := s.pcs[t := pc])
  }

  /** Both counters in one 64-bit word, request in the high half. */
  function Both(request: nat, grant: nat): nat { request * WRAP + grant }

  /** The compare-and-swap of trylock, from (seen, seen) to (seen + 1, seen). */
  predicate Swaps(s: State, seen: nat) {
    Both(s.request, s.grant) == Both(seen, seen)
  }

  function Do(s: State, a: Label): State
    requires Enabled(s, a)
  {
    var t, pc := a.t, s.pcs[a.t];
    match a
    case Take(_) => Becomes(s, t, Spinning(s.request)).(request := (s.request + 1) % WRAP)
    case Look(_) => if s.grant == pc.ticket then Becomes(s, t, Inside) else s
    case Try(_) => Becomes(s, t, Trying(s.request))
    case Swap(_) =>
      if Swaps(s, pc.seen) then
        var word := Both((pc.seen + 1) % WRAP, pc.seen);
        Becomes(s, t, Inside).(request := word / WRAP, grant := word % WRAP)
      else Becomes(s, t, Out)
    case Load(_) => Becomes(s, t, Leaving(s.grant))
    case Store(_) => Becomes(s, t, Out).(grant := (pc.seen + 1) % WRAP)
  }

  ghost predicate Init(s: State) {
    s.request == 0 && s.grant == 0 && forall t :: 0 <= t < |s.pcs| ==> s.pcs[t] == Out
  }

  predicate Joins(s: State, a: Label)
    requires Enabled(s, a)
  {
    a.Take? || (a.Swap? && Swaps(s, s.pcs[a.t].seen))
  }

  /** Who got a place in the order, in order: the i-th of them has the ticket i modulo 2^32. */
  function JoinedAfter(s: State, a: Label, joined: seq<nat>): seq<nat>
    requires Enabled(s, a)
  {
    if Joins(s, a) then joined + [a.t] else joined
  }

  /** How many of them have left. */
  function LeftAfter(s: State, a: Label, left: nat): nat {
    if a.Store? then left + 1 else left
  }

  // ----- The invariant -----------------------------------------------------------------

  /** joined[i] holds ticket i; the first of those who have not left may be further. */
  predicate Place(s: State, joined: seq<nat>, left: nat, i: nat)
    requires left <= i < |joined|
  {
    joined[i] < |s.pcs| &&
    var pc := s.pcs[joined[i]];
    pc == Spinning(i % WRAP) || (i == left && (pc == Inside || pc == Leaving(left % WRAP)))
  }

  predicate Elsewhere(s: State, t: nat) {
    t < |s.pcs| ==> s.pcs[t].Out? || (s.pcs[t].Trying? && s.pcs[t].seen < WRAP)
  }

  ghost predicate Inv(s: State, joined: seq<nat>, left: nat) {
    && left <= |joined|
    && s.request == |joined| % WRAP && s.grant == left % WRAP
    && Distinct(joined[left..])
    && (forall i :: left <= i < |joined| ==> Place(s, joined, left, i))
    && (forall t: nat :: t !in joined[left..] ==> Elsewhere(s, t))
  }

  lemma OutstandingFit(s: State, joined: seq<nat>, left: nat)
    requires Inv(s, joined, left)
    ensures |joined| - left <= |s.pcs|
  {
    var q := joined[left..];
    forall i | 0 <= i < |q| ensures q[i] < |s.pcs| {
      assert Place(s, joined, left, left + i);
    }
    Pigeonhole(q, |s.pcs|);
  }

  lemma SameRemainder(a: nat, b: nat)
    requires a <= b < a + WRAP && a % WRAP == b % WRAP
    ensures a == b
  {
  }

  /** Among fewer than 2^32 outstanding tickets, only the oldest equals grant. */
  lemma OnlyTheOldestIsGranted(s: State, joined: seq<nat>, left: nat, i: nat)
    requires Inv(s, joined, left) && |s.pcs| < WRAP && left <= i < |joined|
    ensures s.grant == i % WRAP <==> i == left
  {
    OutstandingFit(s, joined, left);
    if s.grant == i % WRAP {
      SameRemainder(left, i);
    }
  }

  lemma TrylockSucceedsIff(s: State, joined: seq<nat>, left: nat, seen: nat)
    requires Inv(s, joined, left) && |s.pcs| < WRAP && seen < WRAP
    ensures Swaps(s, seen) <==> left == |joined| && seen == s.request
  {
    OutstandingFit(s, joined, left);
    assert Swaps(s, seen) <==> s.request == seen && s.grant == seen;
    if s.request == s.grant {
      SameRemainder(left, |joined|);
    }
  }

  lemma {:induction false} PlaceIs(s: State, joined: seq<nat>, left: nat, t: nat) returns (i: nat)
    requires Inv(s, joined, left) && t < |s.pcs| && !s.pcs[t].Out? && !s.pcs[t].Trying?
    ensures left <= i < |joined| && joined[i] == t && Place(s, joined, left, i)
  {
    assert t in joined[left..] || Elsewhere(s, t);
    var k :| 0 <= k < |joined[left..]| && joined[left..][k] == t;
    i := left + k;
  }

  // ----- Each step keeps it ------------------------------------------------------------

  lemma Wraps(n: nat)
    ensures (n % WRAP + 1) % WRAP == (n + 1) % WRAP
  {
  }

  lemma JoinKeepsInv(s: State, a: Label, joined: seq<nat>, left: nat)
    requires Inv(s, joined, left) && |s.pcs| < WRAP && Enabled(s, a) && Joins(s, a)
    ensures Inv(Do(s, a), joined + [a.t], left)
  {
    var s', joined' := Do(s, a), joined + [a.t];
    Wraps(|joined|);
    if a.Swap? {
      assert Elsewhere(s, a.t) by {
        assert a.t !in joined[left..] by { NotQueued(s, joined, left, a.t); }
      }
      TrylockSucceedsIff(s, joined, left, s.pcs[a.t].seen);
    }
    NotQueued(s, joined, left, a.t);
    assert joined'[left..] == joined[left..] + [a.t];
    forall i | left <= i < |joined'| ensures Place(s', joined', left, i) {
      if i < |joined| {
        assert Place(s, joined, left, i);
        assert joined[i] == joined[left..][i - left];
      }
    }
    forall t: nat | t !in joined'[left..] ensures Elsewhere(s', t) {
      assert Elsewhere(s, t);
    }
  }

  /** Whoever is about to join is not queued. */
  lemma NotQueued(s: State, joined: seq<nat>, left: nat, t: nat)
    requires Inv(s, joined, left) && t < |s.pcs| && (s.pcs[t].Out? || s.pcs[t].Trying?)
    ensures t !in joined[left..]
  {
    var q := joined[left..];
    forall k | 0 <= k < |q| ensures q[k] != t {
      assert Place(s, joined, left, left + k);
    }
  }

  lemma LeaveKeepsInv(s: State, a: Label, joined: seq<nat>, left: nat)
    requires Inv(s, joined, left) && Enabled(s, a) && a.Store?
    ensures left < |joined| && joined[left] == a.t && Inv(Do(s, a), joined, left + 1)
  {
    var s' := Do(s, a);
    var k := PlaceIs(s, joined, left, a.t);
    Wraps(left);
    var l1 := left + 1;
    var q, q1 := joined[left..], joined[l1..];
    assert q == [a.t] + q1;
    forall i | l1 <= i < |joined| ensures Place(s', joined, l1, i) {
      assert Place(s, joined, left, i);
      assert joined[i] == q[i - left];
    }
    forall i, j | 0 <= i < j < |q1| ensures q1[i] != q1[j] {
      assert q[i + 1] != q[j + 1];
    }
    forall t: nat | t !in q1 ensures Elsewhere(s', t) {
      if t != a.t {
        assert Elsewhere(s, t);
      }
    }
  }

  lemma OtherStepKeepsInv(s: State, a: Label, joined: seq<nat>, left: nat)
    requires Inv(s, joined, left) && |s.pcs| < WRAP && Enabled(s, a) && !Joins(s, a) && !a.Store?
    ensures Inv(Do(s, a), joined, left)
  {
    var s' := Do(s, a);
    if a.Look? || a.Load? {
      var k := PlaceIs(s, joined, left, a.t);
      OnlyTheOldestIsGranted(s, joined, left, k);
      assert joined[left..][k - left] == a.t;
    } else {
      NotQueued(s, joined, left, a.t);
    }
    forall i | left <= i < |joined| ensures Place(s', joined, left, i) {
      assert Place(s, joined, left, i);
      assert joined[i] == joined[left..][i - left];
    }
    forall t: nat | t !in joined[left..] ensures Elsewhere(s', t) {
      assert Elsewhere(s, t);
    }
  }

  lemma StepKeepsInv(s: State, a: Label, joined: seq<nat>, left: nat)
    requires Inv(s, joined, left) && |s.pcs| < WRAP && Enabled(s, a)
    ensures Inv(Do(s, a), JoinedAfter(s, a, joined), LeftAfter(s, a, left)) && |Do(s, a).pcs| == |s.pcs|
  {
    if Joins(s, a) {
      JoinKeepsInv(s, a, joined, left);
    } else if a.Store? {
      LeaveKeepsInv(s, a, joined, left);
    } else {
      OtherStepKeepsInv(s, a, joined, left);
    }
  }

  // ----- Runs --------------------------------------------------------------------------

  ghost predicate IsStep(s: State, a: Label, s': State) {
    Enabled(s, a) && s' == Do(s, a)
  }

  /** Any number of threads below 2^32, and any number of acquisitions. */
  ghost predicate IsExecution(states: seq<State>, run: seq<Label>) {
    && |states| == |run| + 1
    && Init(states[0]) && |states[0].pcs| < 0x1_0000_0000
    && forall i: nat :: i < |run| ==> StepAt(states, run, i)
  }

  ghost predicate StepAt(states: seq<State>, run: seq<Label>, i: nat)
    requires i < |run| && |states| == |run| + 1
  {
    IsStep(states[i], run[i], states[i + 1])
  }

  ghost function Joined(states: seq<State>, run: seq<Label>, i: nat): seq<nat>
    requires IsExecution(states, run) && i < |states|
  {
    if i == 0 then []
    else
      assert StepAt(states, run, i - 1);
      JoinedAfter(states[i - 1], run[i - 1], Joined(states, run, i - 1))
  }

  ghost function Left(states: seq<State>, run: seq<Label>, i: nat): nat
    requires IsExecution(states, run) && i < |states|
  {
    if i == 0 then 0 else LeftAfter(states[i - 1], run[i - 1], Left(states, run, i - 1))
  }

  lemma {:induction false} ReachableStatesAreSafe(states: seq<State>, run: seq<Label>, i: nat)
    requires IsExecution(states, run) && i < |states|
    ensures Inv(states[i], Joined(states, run, i), Left(states, run, i)) && |states[i].pcs| < WRAP
  {
    if i > 0 {
      ReachableStatesAreSafe(states, run, i - 1);
      assert StepAt(states, run, i - 1);
      StepKeepsInv(states[i - 1], run[i - 1], Joined(states, run, i - 1), Left(states, run, i - 1));
    }
  }

  /** request - grant, modulo 2^32, counts those who joined and have not left, and their tickets
      are all different. */
  lemma CountersTellTheQueue(states: seq<State>, run: seq<Label>, i: nat, t: nat, u: nat)
    requires IsExecution(states, run) && i < |states|
    ensures (states[i].request - states[i].grant) % 0x1_0000_0000 == |Joined(states, run, i)| - Left(states, run, i)
    ensures t < |states[i].pcs| && u < |states[i].pcs| && t != u ==>
              !(states[i].pcs[t].Spinning? && states[i].pcs[t] == states[i].pcs[u])
  {
    ReachableStatesAreSafe(states, run, i);
    var s, joined, left := states[i], Joined(states, run, i), Left(states, run, i);
    OutstandingFit(s, joined, left);
    Difference(|joined|, left);
    if t < |s.pcs| && u < |s.pcs| && s.pcs[t].Spinning? && s.pcs[t] == s.pcs[u] {
      var j := PlaceIs(s, joined, left, t);
      var k := PlaceIs(s, joined, left, u);
      SameRemainder(if j <= k then j else k, if j <= k then k else j);
    }
  }

  lemma Difference(a: nat, b: nat)
    requires b <= a < b + WRAP
    ensures (a % WRAP - b % WRAP) % WRAP == a - b
  {
  }

  /** At most one thread is inside, and it is the oldest: service is first come, first served. */
  lemma ServiceIsFifo(states: seq<State>, run: seq<Label>, i: nat, t: nat)
    requires IsExecution(states, run) && i < |states| && t < |states[i].pcs|
    requires states[i].pcs[t].Inside? || states[i].pcs[t].Leaving?
    ensures Left(states, run, i) < |Joined(states, run, i)| && Joined(states, run, i)[Left(states, run, i)] == t
  {
    ReachableStatesAreSafe(states, run, i);
    var k := PlaceIs(states[i], Joined(states, run, i), Left(states, run, i), t);
  }

  lemma MutualExclusion(states: seq<State>, run: seq<Label>, i: nat, t: nat, u: nat)
    requires IsExecution(states, run) && i < |states| && t < |states[i].pcs| && u < |states[i].pcs|
    requires states[i].pcs[t].Inside? || states[i].pcs[t].Leaving?
    requires states[i].pcs[u].Inside? || states[i].pcs[u].Leaving?
    ensures t == u
  {
    ServiceIsFifo(states, run, i, t);
    ServiceIsFifo(states, run, i, u);
  }

  /** What trylock goes by is what request was at its start. */
  lemma {:induction false} SeenIsRequest(states: seq<State>, run: seq<Label>, i: nat, j: nat, t: nat)
    requires IsExecution(states, run) && i < j < |states| && run[i] == Try(t)
    requires forall k: nat :: i < k < j ==> run[k].t != t
    ensures t < |states[j].pcs| && states[j].pcs[t] == Trying(states[i].request)
  {
    assert StepAt(states, run, j - 1);
    if i + 1 < j {
      SeenIsRequest(states, run, i, j - 1, t);
      assert run[j - 1].t != t;
    }
  }

  /** So a trylock that nobody interferes with succeeds exactly on a free lock. */
  lemma TrylockAloneIff(states: seq<State>, run: seq<Label>, i: nat, t: nat)
    requires IsExecution(states, run) && i + 1 < |run| && run[i] == Try(t) && run[i + 1] == Swap(t)
    ensures t < |states[i + 2].pcs|
    ensures states[i + 2].pcs[t].Inside? <==> Left(states, run, i) == |Joined(states, run, i)|
    ensures !states[i + 2].pcs[t].Inside? ==> states[i + 2].pcs[t].Out?
  {
    assert StepAt(states, run, i) && StepAt(states, run, i + 1);
    SeenIsRequest(states, run, i, i + 1, t);
    TrylockIff(states, run, i + 1, t);
    assert Joined(states, run, i + 1) == Joined(states, run, i);
  }

  /** A thread in lock waits until it is inside, and one inside stays until it stores grant. */
  lemma {:induction false} LockReturnsInside(states: seq<State>, run: seq<Label>, i: nat, j: nat, t: nat)
    requires IsExecution(states, run) && i < j < |states| && run[i] == Take(t)
    requires forall k: nat :: i < k <= j ==> t < |states[k].pcs| ==> !states[k].pcs[t].Inside?
    ensures t < |states[j].pcs| && states[j].pcs[t] == Spinning(states[i].request)
  {
    assert StepAt(states, run, j - 1);
    if i + 1 < j {
      LockReturnsInside(states, run, i, j - 1, t);
      assert !states[j].pcs[t].Inside?;
    }
  }

  lemma InsideUntilUnlock(states: seq<State>, run: seq<Label>, i: nat, t: nat)
    requires IsExecution(states, run) && i < |run| && t < |states[i].pcs|
    requires states[i].pcs[t].Inside? || states[i].pcs[t].Leaving?
    ensures t < |states[i + 1].pcs|
    ensures states[i].pcs[t].Inside? ==> (states[i + 1].pcs[t].Inside? <==> run[i] != Load(t))
    ensures states[i].pcs[t].Leaving? ==> (states[i + 1].pcs[t].Out? <==> run[i] == Store(t))
  {
    assert StepAt(states, run, i);
  }

  /** trylock takes the lock exactly when nobody holds it or waits, and request reads as it did
      when trylock read it: nobody joined since, or a multiple of 2^32 did. */
  lemma TrylockIff(states: seq<State>, run: seq<Label>, i: nat, t: nat)
    requires IsExecution(states, run) && i < |states| && t < |states[i].pcs| && states[i].pcs[t].Trying?
    ensures Do(states[i], Swap(t)).pcs[t].Inside? <==>
              Left(states, run, i) == |Joined(states, run, i)| && states[i].pcs[t].seen == states[i].request
  {
    ReachableStatesAreSafe(states, run, i);
    var s, joined, left := states[i], Joined(states, run, i), Left(states, run, i);
    NotQueued(s, joined, left, t);
    assert Elsewhere(s, t);
    TrylockSucceedsIff(s, joined, left, s.pcs[t].seen);
  }

  /** The oldest waiter always gets in by looking, and nobody else does. */
  lemma OnlyTheOldestGetsIn(states: seq<State>, run: seq<Label>, i: nat, t: nat)
    requires IsExecution(states, run) && i < |states| && t < |states[i].pcs| && states[i].pcs[t].Spinning?
    ensures Left(states, run, i) < |Joined(states, run, i)|
    ensures Do(states[i], Look(t)).pcs[t].Inside? <==> t == Joined(states, run, i)[Left(states, run, i)]
  {
    ReachableStatesAreSafe(states, run, i);
    var s, joined, left := states[i], Joined(states, run, i), Left(states, run, i);
    var k := PlaceIs(s, joined, left, t);
    OnlyTheOldestIsGranted(s, joined, left, k);
    assert k > left ==> joined[left..][0] != joined[left..][k - left];
  }
}
