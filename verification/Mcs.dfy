/**
 The MCS lock of mcs.c with the parking waiting policies: one queue node a thread, and on its spin
 word at most that thread sleeps. Every load, store, exchange and futex call is one step, and
 steps of different threads interleave freely.
 */
module Mcs {
  import opened TwoQueue
  import opened WaitingPolicy

  datatype Pc =
    | Out
    | Arriving                 // next cleared, about to exchange tail
    | Trying                   // node set up, about to compare tail with NULL
    | Clearing(pred: nat)      // behind pred, about to clear spin
    | Linking(pred: nat)       // about to store pred->next
    | Waiting(phase: Phase)    // in waiting_policy_sleep
    | Inside
    | Swinging                 // in unlock, saw no successor, about to compare and swap tail
    | Expecting                // the swap failed, waiting for the successor to link itself
    | Granting(succ: nat)      // about to store the spin word of succ
    | OwesWake(succ: nat)      // about to call FUTEX_WAKE on it

  datatype Thread = Thread(pc: Pc, next: Option<nat>, spin: Word)

  datatype State = State(tail: Option<nat>, th: seq<Thread>)

  datatype Label =
    | Lock(t: nat)
    | Exchange(t: nat)
    | TryLock(t: nat)
    | TrySwap(t: nat)
    | Clear(t: nat)
    | Link(t: nat)
    | Wait(t: nat, cause: Cause)
    | Unlock(t: nat)           // the first look at next
    | Swing(t: nat)
    | Expect(t: nat)
    | Grant(t: nat)
    | FutexWake(t: nat)

  predicate At(s: State, t: nat, pc: Pc) {
    t < |s.th| && s.th[t].pc == pc
  }

  /** The thread and node another thread's node leads to exist. */
  predicate Names(s: State, u: nat) {
    u < |s.th|
  }

  predicate Enabled(s: State, a: Label) {
    Names(s, a.t) &&
    var pc := s.th[a.t].pc;
    match a
    case Lock(_) => pc == Out
    case TryLock(_) => pc == Out
    case Exchange(_) => pc == Arriving
    case TrySwap(_) => pc == Trying
    case Clear(_) => pc.Clearing?
    case Link(_) => pc.Linking? && Names(s, pc.pred)
    case Wait(_, cause) => pc.Waiting? && cause != Woken && CanMove(pc.phase, cause)
    case Unlock(_) => pc == Inside
    case Swing(_) => pc == Swinging
    case Expect(_) => pc == Expecting && s.th[a.t].next.Some?
    case Grant(_) => pc.Granting? && Names(s, pc.succ)
    case FutexWake(_) => pc.OwesWake? && Names(s, pc.succ)
  }

  function Goes(s: State, t: nat, pc: Pc): State
    requires Names(s, t)
  {
    s.(th := s.th[t := s.th[t].(pc := pc)])
  }

  function WithNext(s: State, t: nat, next: Option<nat>): State
    requires Names(s, t)
  {
    s.(th := s.th[t := s.th[t].(next := next)])
  }

  function WithSpin(s: State, t: nat, spin: Word): State
    requires Names(s, t)
  {
    s.(th := s.th[t := s.th[t].(spin := spin)])
  }

  function Do(p: Policy, s: State, a: Label): State
    requires Enabled(s, a)
  {
    var t, me := a.t, s.th[a.t];
    match a
    case Lock(_) => WithNext(Goes(s, t, Arriving), t, None)
    case Exchange(_) => Goes(s, t, if s.tail == None then Inside else Clearing(s.tail.value)).(tail := Some(t))
    case TryLock(_) => WithSpin(WithNext(Goes(s, t, Trying), t, None), t, LOCKED)
    case TrySwap(_) => if s.tail == None then Goes(s, t, Inside).(tail := Some(t)) else Goes(s, t, Out)
    case Clear(_) => WithSpin(Goes(s, t, Linking(me.pc.pred)), t, LOCKED)
    case Link(_) => WithNext(Goes(s, t, Waiting(Start(p))), me.pc.pred, Some(t))
    case Wait(_, cause) =>
      var phase := Move(me.pc.phase, me.spin, cause);
      Goes(s, t, if phase == None then Inside else Waiting(phase.value))
    case Unlock(_) => Goes(s, t, if me.next == None then Swinging else Granting(me.next.value))
    case Swing(_) => if s.tail == Some(t) then Goes(s, t, Out).(tail := None) else Goes(s, t, Expecting)
    case Expect(_) => Goes(s, t, Granting(me.next.value))
    case Grant(_) => WithSpin(Goes(s, t, if p == SpinOnly then Out else OwesWake(me.pc.succ)), me.pc.succ, UNLOCKED)
    case FutexWake(_) =>
      // only the owner of a node can sleep on it
      if At(s, me.pc.succ, Waiting(Parked)) then Goes(Goes(s, t, Out), me.pc.succ, Waiting(Resuming))
      else Goes(s, t, Out)
  }

  ghost predicate Init(s: State) {
    s.tail == None && forall t: nat :: Names(s, t) ==> At(s, t, Out)
  }

  /** Exchanging tail joins the queue; a grant, and emptying tail, leave it. */
  function Joins(s: State, a: Label): seq<nat> {
    if a.Exchange? || (a.TrySwap? && s.tail == None) then [a.t] else []
  }

  function Leaves(s: State, a: Label): nat {
    if a.Grant? || (a.Swing? && s.tail == Some(a.t)) then 1 else 0
  }

  /** The arrival order of those who joined and have not left: who leaves is always the first. */
  function QueueAfter(s: State, a: Label, q: seq<nat>): seq<nat>
  {
    if Leaves(s, a) <= |q + Joins(s, a)| then (q + Joins(s, a))[Leaves(s, a)..] else []
  }

  // ----- The invariant -----------------------------------------------------------------

  predicate IsOwner(pc: Pc) {
    pc.Inside? || pc.Swinging? || pc.Expecting? || pc.Granting?
  }

  predicate IsQueued(pc: Pc) {
    IsOwner(pc) || pc.Clearing? || pc.Linking? || pc.Waiting?
  }

  /** The first of the queue owns the lock, or was granted it and has yet to see that. */
  predicate First(s: State, t: nat) {
    Names(s, t) && (IsOwner(s.th[t].pc) || (s.th[t].pc.Waiting? && s.th[t].spin == UNLOCKED))
  }

  /** A later one is on its way to sleep, or waits for its spin word, or still has to link. */
  predicate Later(s: State, pred: nat, t: nat) {
    && Names(s, t) && Names(s, pred)
    && match s.th[t].pc
       case Clearing(r) => r == pred && s.th[pred].next == None
       case Linking(r) => r == pred && s.th[pred].next == None && s.th[t].spin == LOCKED
       case Waiting(_) => s.th[pred].next == Some(t) && s.th[t].spin == LOCKED
       case _ => false
  }

  ghost predicate Place(s: State, q: seq<nat>, i: nat)
    requires i < |q|
  {
    if i == 0 then First(s, q[0]) else Later(s, q[i - 1], q[i])
  }

  /** A thread outside the queue has nothing to do with it. */
  predicate Outside(s: State, t: nat) {
    Names(s, t) ==> !IsQueued(s.th[t].pc) && (s.th[t].pc.Arriving? || s.th[t].pc.Trying? ==> s.th[t].next == None)
  }

  /** What an owner that looked at its link found. */
  predicate KnowsSuccessor(s: State, t: nat) {
    Names(s, t) && s.th[t].pc.Granting? ==> s.th[t].next == Some(s.th[t].pc.succ)
  }

  /** A parked thread whose word is UNLOCKED has a wake-up coming. */
  ghost predicate WakeIsOwed(s: State, t: nat) {
    At(s, t, Waiting(Parked)) && s.th[t].spin == UNLOCKED ==> exists u: nat :: At(s, u, OwesWake(t))
  }

  predicate WakesThread(s: State, t: nat) {
    Names(s, t) && s.th[t].pc.OwesWake? ==> Names(s, s.th[t].pc.succ)
  }

  predicate Spins(p: Policy, s: State, t: nat) {
    p == SpinOnly && Names(s, t) && s.th[t].pc.Waiting? ==> s.th[t].pc.phase == Resuming
  }

  /** An owner that waits for a link is not the last one. */
  predicate HasCompany(s: State, t: nat) {
    Names(s, t) && s.th[t].pc.Expecting? ==> s.tail != Some(t)
  }

  ghost predicate Shape(s: State, q: seq<nat>) {
    && Distinct(q)
    && s.tail == (if q == [] then None else Some(q[|q| - 1]))
    && (q != [] ==> Names(s, q[|q| - 1]) && s.th[q[|q| - 1]].next == None)
    && (forall i: nat :: i < |q| ==> Place(s, q, i))
    && (forall t: nat :: t !in q ==> Outside(s, t))
  }

  ghost predicate Duties(p: Policy, s: State) {
    && (forall t: nat :: KnowsSuccessor(s, t))
    && (forall t: nat :: WakeIsOwed(s, t))
    && (forall t: nat :: WakesThread(s, t))
    && (forall t: nat :: HasCompany(s, t))
    && (forall t: nat :: Spins(p, s, t))
  }

  // ----- Each step keeps it ------------------------------------------------------------

  /** Nobody joins or leaves the queue. */
  predicate IsQuiet(s: State, a: Label) {
    && !a.Exchange? && !a.Grant?
    && (a.TrySwap? ==> s.tail != None)
    && (a.Swing? ==> s.tail != Some(a.t))
  }

  lemma QuietStepKeepsPlace(p: Policy, s: State, a: Label, q: seq<nat>, i: nat)
    requires Shape(s, q) && Enabled(s, a) && IsQuiet(s, a) && i < |q|
    ensures Place(Do(p, s, a), q, i)
  {
    assert Place(s, q, i);
    if a.t in q {
      var k: nat :| k < |q| && q[k] == a.t;
      assert Place(s, q, k);
    } else {
      assert Outside(s, a.t);
    }
  }

  lemma QuietStepKeepsShape(p: Policy, s: State, a: Label, q: seq<nat>)
    requires Shape(s, q) && Enabled(s, a) && IsQuiet(s, a)
    ensures Shape(Do(p, s, a), q) && QueueAfter(s, a, q) == q
  {
    var s' := Do(p, s, a);
    forall i: nat | i < |q| ensures Place(s', q, i) {
      QuietStepKeepsPlace(p, s, a, q, i);
    }
    forall t: nat | t !in q ensures Outside(s', t) {
      QuietStepKeepsOutside(p, s, a, q, t);
    }
    if q != [] {
      QuietStepKeepsEnd(p, s, a, q);
    }
  }

  lemma QuietStepKeepsOutside(p: Policy, s: State, a: Label, q: seq<nat>, t: nat)
    requires Shape(s, q) && Enabled(s, a) && IsQuiet(s, a) && t !in q
    ensures Outside(Do(p, s, a), t)
  {
    assert Outside(s, t);
    if a.t in q {
      var k: nat :| k < |q| && q[k] == a.t;
      assert Place(s, q, k);
    } else {
      assert Outside(s, a.t);
    }
  }

  lemma QuietStepKeepsEnd(p: Policy, s: State, a: Label, q: seq<nat>)
    requires Shape(s, q) && Enabled(s, a) && IsQuiet(s, a) && q != []
    ensures Names(Do(p, s, a), q[|q| - 1]) && Do(p, s, a).th[q[|q| - 1]].next == None
  {
    if a.t in q {
      var k: nat :| k < |q| && q[k] == a.t;
      assert Place(s, q, k);
    } else {
      assert Outside(s, a.t);
    }
  }

  lemma InQueueIsQueued(s: State, q: seq<nat>, t: nat)
    requires Shape(s, q) && t in q
    ensures Names(s, t) && IsQueued(s.th[t].pc)
  {
    var k: nat :| k < |q| && q[k] == t;
    assert Place(s, q, k);
  }

  lemma JoinKeepsShape(p: Policy, s: State, a: Label, q: seq<nat>)
    requires Shape(s, q) && Enabled(s, a)
    requires a.Exchange? || (a.TrySwap? && s.tail == None)
    ensures Shape(Do(p, s, a), QueueAfter(s, a, q)) && QueueAfter(s, a, q) == q + [a.t]
  {
    var s', q' := Do(p, s, a), q + [a.t];
    assert a.t !in q by {
      if a.t in q {
        InQueueIsQueued(s, q, a.t);
      }
    }
    assert Outside(s, a.t);
    forall i: nat | i < |q'| ensures Place(s', q', i) {
      if i < |q| {
        assert Place(s, q, i);
      }
    }
    forall t: nat | t !in q' ensures Outside(s', t) {
      assert Outside(s, t);
    }
  }

  /** The granter's successor is the second of the queue, asleep or about to be. */
  lemma GrantsTheSecond(s: State, a: Label, q: seq<nat>)
    requires Shape(s, q) && KnowsSuccessor(s, a.t) && Enabled(s, a) && a.Grant?
    ensures |q| > 1 && q[0] == a.t && q[1] == s.th[a.t].pc.succ
    ensures s.th[q[1]].pc.Waiting? && s.th[q[1]].spin == LOCKED
  {
    assert a.t in q || Outside(s, a.t);
    var k: nat :| k < |q| && q[k] == a.t;
    assert Place(s, q, k);
    assert k == 0;
    assert |q| > 1;
    assert Place(s, q, 1);
  }

  lemma LeaveKeepsShape(p: Policy, s: State, a: Label, q: seq<nat>)
    requires Shape(s, q) && KnowsSuccessor(s, a.t) && Enabled(s, a)
    requires a.Grant? || (a.Swing? && s.tail == Some(a.t))
    ensures q != [] && q[0] == a.t
    ensures Shape(Do(p, s, a), QueueAfter(s, a, q)) && QueueAfter(s, a, q) == q[1..]
  {
    var s', q' := Do(p, s, a), QueueAfter(s, a, q);
    if a.Grant? {
      GrantsTheSecond(s, a, q);
      forall i: nat | i < |q'| ensures Place(s', q', i) {
        assert Place(s, q, i + 1);
      }
    } else {
      assert Place(s, q, |q| - 1);
      assert |q| == 1 && q' == [];
    }
    assert q == [q[0]] + q';
    forall t: nat | t !in q' ensures Outside(s', t) {
      if t != a.t {
        assert Outside(s, t);
      }
    }
  }

  lemma StepKeepsShape(p: Policy, s: State, a: Label, q: seq<nat>)
    requires Shape(s, q) && Duties(p, s) && Enabled(s, a)
    ensures Shape(Do(p, s, a), QueueAfter(s, a, q)) && Leaves(s, a) <= |q|
  {
    assert KnowsSuccessor(s, a.t);
    if IsQuiet(s, a) {
      QuietStepKeepsShape(p, s, a, q);
    } else if a.Exchange? || a.TrySwap? {
      JoinKeepsShape(p, s, a, q);
    } else {
      LeaveKeepsShape(p, s, a, q);
    }
  }

  lemma StepKeepsKnowledge(p: Policy, s: State, a: Label, q: seq<nat>, t: nat)
    requires Shape(s, q) && Duties(p, s) && Enabled(s, a)
    ensures KnowsSuccessor(Do(p, s, a), t) && WakesThread(Do(p, s, a), t) && HasCompany(Do(p, s, a), t)
  {
    assert KnowsSuccessor(s, t) && WakesThread(s, t) && HasCompany(s, t);
    if a.Link? {
      LinksTheLast(s, a, q);
    }
  }

  /** A thread links itself to a node whose next is still NULL. */
  lemma LinksTheLast(s: State, a: Label, q: seq<nat>)
    requires Shape(s, q) && Enabled(s, a) && a.Link?
    ensures s.th[s.th[a.t].pc.pred].next == None
  {
    assert a.t in q || Outside(s, a.t);
    var k: nat :| k < |q| && q[k] == a.t;
    assert Place(s, q, k);
  }

  lemma StepKeepsSpinning(p: Policy, s: State, a: Label, t: nat)
    requires Duties(p, s) && Enabled(s, a)
    ensures Spins(p, Do(p, s, a), t)
  {
    assert Spins(p, s, t) && Spins(p, s, a.t);
  }

  lemma StepKeepsWake(p: Policy, s: State, a: Label, q: seq<nat>, t: nat)
    requires Shape(s, q) && Duties(p, s) && Enabled(s, a)
    ensures WakeIsOwed(Do(p, s, a), t)
  {
    var s' := Do(p, s, a);
    if At(s', t, Waiting(Parked)) && s'.th[t].spin == UNLOCKED {
      StepKeepsSpinning(p, s, a, t);
      assert Spins(p, s', t);
      if a.Grant? && s.th[a.t].pc.succ == t {
        assert At(s', a.t, OwesWake(t));
      } else {
        assert WakeIsOwed(s, t);
        var u: nat :| At(s, u, OwesWake(t));
        assert At(s', u, OwesWake(t));
      }
    }
  }

  lemma StepKeepsDuties(p: Policy, s: State, a: Label, q: seq<nat>)
    requires Shape(s, q) && Duties(p, s) && Enabled(s, a)
    ensures Duties(p, Do(p, s, a))
  {
    forall t: nat
      ensures KnowsSuccessor(Do(p, s, a), t) && WakesThread(Do(p, s, a), t) && HasCompany(Do(p, s, a), t)
      ensures WakeIsOwed(Do(p, s, a), t) && Spins(p, Do(p, s, a), t)
    {
      StepKeepsKnowledge(p, s, a, q, t);
      StepKeepsSpinning(p, s, a, t);
      StepKeepsWake(p, s, a, q, t);
    }
  }

  // ----- Runs --------------------------------------------------------------------------

  ghost predicate Inv(p: Policy, s: State, q: seq<nat>) {
    Shape(s, q) && Duties(p, s)
  }

  ghost predicate IsStep(p: Policy, s: State, a: Label, s': State) {
    Enabled(s, a) && s' == Do(p, s, a)
  }

  ghost predicate IsExecution(p: Policy, states: seq<State>, run: seq<Label>) {
    && |states| == |run| + 1
    && Init(states[0])
    && forall i: nat :: i < |run| ==> StepAt(p, states, run, i)
  }

  ghost predicate StepAt(p: Policy, states: seq<State>, run: seq<Label>, i: nat)
    requires i < |run| && |states| == |run| + 1
  {
    IsStep(p, states[i], run[i], states[i + 1])
  }

  /** Everybody who joined the queue before step i, in order. */
  ghost function Joined(p: Policy, states: seq<State>, run: seq<Label>, i: nat): seq<nat>
    requires IsExecution(p, states, run) && i < |states|
  {
    if i == 0 then [] else Joined(p, states, run, i - 1) + Joins(states[i - 1], run[i - 1])
  }

  /** How many left it before step i. */
  ghost function Left(p: Policy, states: seq<State>, run: seq<Label>, i: nat): nat
    requires IsExecution(p, states, run) && i < |states|
  {
    if i == 0 then 0 else Left(p, states, run, i - 1) + Leaves(states[i - 1], run[i - 1])
  }

  lemma InitIsSafe(p: Policy, s: State)
    requires Init(s)
    ensures Inv(p, s, [])
  {
    forall t: nat
      ensures Outside(s, t) && KnowsSuccessor(s, t) && WakeIsOwed(s, t)
      ensures WakesThread(s, t) && HasCompany(s, t) && Spins(p, s, t)
    {
      assert Names(s, t) ==> At(s, t, Out);
    }
  }

  /** The lists of every reachable state are those of the arrival order: who joined, in order,
      without the first few, who left. */
  lemma {:induction false} QueueIsTheArrivalOrder(p: Policy, states: seq<State>, run: seq<Label>, i: nat)
    requires IsExecution(p, states, run) && i < |states|
    ensures Left(p, states, run, i) <= |Joined(p, states, run, i)|
    ensures Inv(p, states[i], Joined(p, states, run, i)[Left(p, states, run, i)..])
  {
    if i == 0 {
      InitIsSafe(p, states[0]);
    } else {
      QueueIsTheArrivalOrder(p, states, run, i - 1);
      assert StepAt(p, states, run, i - 1);
      OneMore(p, states[i - 1], run[i - 1], Joined(p, states, run, i - 1), Left(p, states, run, i - 1));
    }
  }

  lemma OneMore(p: Policy, s: State, a: Label, joined: seq<nat>, left: nat)
    requires left <= |joined| && Inv(p, s, joined[left..]) && Enabled(s, a)
    ensures left + Leaves(s, a) <= |joined|
    ensures Inv(p, Do(p, s, a), (joined + Joins(s, a))[left + Leaves(s, a)..])
  {
    AfterStep(p, s, a, joined[left..]);
    QueueMoves(joined, Joins(s, a), left, Leaves(s, a));
  }

  lemma AfterStep(p: Policy, s: State, a: Label, q: seq<nat>)
    requires Inv(p, s, q) && Enabled(s, a)
    ensures Inv(p, Do(p, s, a), QueueAfter(s, a, q)) && Leaves(s, a) <= |q|
    ensures IsQuiet(s, a) ==> QueueAfter(s, a, q) == q
  {
    QueueIs(s, a, q);
    StepKeepsShape(p, s, a, q);
    StepKeepsDuties(p, s, a, q);
  }

  lemma QueueIs(s: State, a: Label, q: seq<nat>)
    ensures IsQuiet(s, a) ==> QueueAfter(s, a, q) == q
    ensures q != [] && Joins(s, a) == [] && Leaves(s, a) == 1 ==> QueueAfter(s, a, q) == q[1..]
  {
    assert q + [] == q;
  }

  lemma QueueMoves(joined: seq<nat>, joins: seq<nat>, left: nat, leaves: nat)
    requires left <= |joined| && left + leaves <= |joined|
    ensures (joined[left..] + joins)[leaves..] == (joined + joins)[left + leaves..]
  {
  }

  /** At most one thread holds the lock, in the section or on its way out of it. */
  lemma MutualExclusion(p: Policy, states: seq<State>, run: seq<Label>, i: nat, t: nat, u: nat)
    requires IsExecution(p, states, run) && i < |states|
    requires Names(states[i], t) && IsOwner(states[i].th[t].pc)
    requires Names(states[i], u) && IsOwner(states[i].th[u].pc)
    ensures t == u
  {
    QueueIsTheArrivalOrder(p, states, run, i);
    OwnerIsFirst(states[i], Joined(p, states, run, i)[Left(p, states, run, i)..], t);
    OwnerIsFirst(states[i], Joined(p, states, run, i)[Left(p, states, run, i)..], u);
  }

  lemma OwnerIsFirst(s: State, q: seq<nat>, t: nat)
    requires Shape(s, q) && Names(s, t) && IsOwner(s.th[t].pc)
    ensures q != [] && q[0] == t
  {
    assert t in q || Outside(s, t);
    var k: nat :| k < |q| && q[k] == t;
    assert Place(s, q, k);
  }

  /** Service is in arrival order: whoever gets in is the first of those who joined and have not
      left, whatever spurious or stale wake-ups happened. */
  lemma ServiceIsFifo(p: Policy, states: seq<State>, run: seq<Label>, i: nat, t: nat)
    requires IsExecution(p, states, run) && i < |states| && At(states[i], t, Inside)
    ensures Left(p, states, run, i) < |Joined(p, states, run, i)|
    ensures Joined(p, states, run, i)[Left(p, states, run, i)] == t
  {
    QueueIsTheArrivalOrder(p, states, run, i);
    OwnerIsFirst(states[i], Joined(p, states, run, i)[Left(p, states, run, i)..], t);
  }

  // ----- Progress ----------------------------------------------------------------------

  /** A step of a thread that is queued, or a wake-up owed: nobody arrives, and the kernel ends no
      FUTEX_WAIT but those of threads that are woken. */
  predicate Helps(a: Label) {
    || a.Clear? || a.Link? || (a.Wait? && a.cause == Itself) || a.Unlock?
    || a.Swing? || a.Expect? || a.Grant? || a.FutexWake?
  }

  /** At most k such steps, well chosen, let the first of the queue go in, come out and leave. */
  ghost predicate CanLeave(p: Policy, s: State, q: seq<nat>, k: nat)
    decreases k
  {
    k > 0 && q != [] && exists a ::
      && Helps(a) && Enabled(s, a)
      && (QueueAfter(s, a, q) == q[1..] || (QueueAfter(s, a, q) == q && CanLeave(p, Do(p, s, a), q, k - 1)))
  }

  lemma TakesStep(p: Policy, s: State, a: Label, q: seq<nat>, k: nat)
    requires q != [] && Helps(a) && Enabled(s, a) && k > 0
    requires IsQuiet(s, a) ==> CanLeave(p, Do(p, s, a), q, k - 1)
    ensures CanLeave(p, s, q, k)
  {
    QueueIs(s, a, q);
  }

  /** What the owner finds behind it. */
  lemma Behind(s: State, q: seq<nat>)
    requires Shape(s, q) && q != []
    ensures First(s, q[0])
    ensures s.th[q[0]].next.Some? ==> |q| > 1 && s.th[q[0]].next == Some(q[1])
    ensures |q| > 1 ==> Later(s, q[0], q[1])
    ensures |q| == 1 <==> s.tail == Some(q[0])
  {
    assert Place(s, q, 0);
    assert |q| > 1 ==> Place(s, q, 1);
  }

  lemma GranterLeaves(p: Policy, s: State, q: seq<nat>, k: nat)
    requires Inv(p, s, q) && q != [] && Names(s, q[0]) && s.th[q[0]].pc.Granting? && k >= 1
    ensures CanLeave(p, s, q, k)
  {
    Behind(s, q);
    assert KnowsSuccessor(s, q[0]);
    TakesStep(p, s, Grant(q[0]), q, k);
  }

  lemma LinkedLeaves(p: Policy, s: State, q: seq<nat>, k: nat)
    requires Inv(p, s, q) && q != [] && At(s, q[0], Expecting) && s.th[q[0]].next.Some? && k >= 2
    ensures CanLeave(p, s, q, k)
  {
    var a := Expect(q[0]);
    AfterStep(p, s, a, q);
    GranterLeaves(p, Do(p, s, a), q, k - 1);
    TakesStep(p, s, a, q, k);
  }

  /** An owner that found no link, and then that somebody has joined, gets the link within two
      steps of that thread. */
  lemma {:induction false} ExpecterLeaves(p: Policy, s: State, q: seq<nat>, k: nat)
    requires Inv(p, s, q) && q != [] && At(s, q[0], Expecting)
    requires k >= if |q| > 1 && Names(s, q[1]) && s.th[q[1]].pc.Clearing? then 4 else 3
    ensures CanLeave(p, s, q, k)
    decreases k
  {
    Behind(s, q);
    assert HasCompany(s, q[0]);
    if s.th[q[0]].next.Some? {
      LinkedLeaves(p, s, q, k);
    } else {
      assert q[0] != q[1];
      var a := if s.th[q[1]].pc.Clearing? then Clear(q[1]) else Link(q[1]);
      AfterStep(p, s, a, q);
      if a.Clear? {
        ExpecterLeaves(p, Do(p, s, a), q, k - 1);
      } else {
        LinkedLeaves(p, Do(p, s, a), q, k - 1);
      }
      TakesStep(p, s, a, q, k);
    }
  }

  lemma SwingerLeaves(p: Policy, s: State, q: seq<nat>, k: nat)
    requires Inv(p, s, q) && q != [] && At(s, q[0], Swinging) && k >= 5
    ensures CanLeave(p, s, q, k)
  {
    Behind(s, q);
    var a := Swing(q[0]);
    if |q| > 1 {
      AfterStep(p, s, a, q);
      ExpecterLeaves(p, Do(p, s, a), q, k - 1);
    }
    TakesStep(p, s, a, q, k);
  }

  lemma InsiderLeaves(p: Policy, s: State, q: seq<nat>, k: nat)
    requires Inv(p, s, q) && q != [] && At(s, q[0], Inside) && k >= 6
    ensures CanLeave(p, s, q, k)
  {
    var a := Unlock(q[0]);
    AfterStep(p, s, a, q);
    if s.th[q[0]].next.Some? {
      GranterLeaves(p, Do(p, s, a), q, k - 1);
    } else {
      SwingerLeaves(p, Do(p, s, a), q, k - 1);
    }
    TakesStep(p, s, a, q, k);
  }

  /** A granted thread gets in, although it may be parked and its waker late: the wake-up is owed,
      and two steps are enough. */
  lemma {:induction false} GrantedLeaves(p: Policy, s: State, q: seq<nat>, k: nat)
    requires Inv(p, s, q) && q != [] && Names(s, q[0]) && s.th[q[0]].pc.Waiting?
    requires k >= 6 + ToGo(s.th[q[0]].pc.phase)
    ensures CanLeave(p, s, q, k)
    decreases k
  {
    Behind(s, q);
    var phase := s.th[q[0]].pc.phase;
    var a := Wait(q[0], Itself);
    if phase.Parked? {
      assert WakeIsOwed(s, q[0]);
      var u: nat :| At(s, u, OwesWake(q[0]));
      a := FutexWake(u);
    } else {
      UnlockedIsSeen(phase, Itself);
    }
    AfterStep(p, s, a, q);
    if ToGo(phase) == 1 {
      InsiderLeaves(p, Do(p, s, a), q, k - 1);
    } else {
      GrantedLeaves(p, Do(p, s, a), q, k - 1);
    }
    TakesStep(p, s, a, q, k);
  }

  /** The lock never gets stuck: in every reachable state with anybody queued, eight steps of
      queued threads and owed wake-ups let the first one get in, come out, and hand over. */
  lemma NeverStuck(p: Policy, states: seq<State>, run: seq<Label>, i: nat, k: nat)
    requires IsExecution(p, states, run) && i < |states|
    requires Left(p, states, run, i) < |Joined(p, states, run, i)| && k >= 8
    ensures CanLeave(p, states[i], Joined(p, states, run, i)[Left(p, states, run, i)..], k)
  {
    QueueIsTheArrivalOrder(p, states, run, i);
    FirstLeaves(p, states[i], Joined(p, states, run, i)[Left(p, states, run, i)..], k);
  }

  lemma FirstLeaves(p: Policy, s: State, q: seq<nat>, k: nat)
    requires Inv(p, s, q) && q != [] && k >= 8
    ensures CanLeave(p, s, q, k)
  {
    Behind(s, q);
    match s.th[q[0]].pc
    case Waiting(_) => GrantedLeaves(p, s, q, k);
    case Inside => InsiderLeaves(p, s, q, k);
    case Swinging => SwingerLeaves(p, s, q, k);
    case Expecting => ExpecterLeaves(p, s, q, k);
    case Granting(_) => GranterLeaves(p, s, q, k);
  }

  // ----- Calls -------------------------------------------------------------------------

  /** trylock takes the lock exactly when it finds tail NULL; else it returns at once, having joined
      nothing and changed nothing. */
  lemma TrylockIff(p: Policy, states: seq<State>, run: seq<Label>, i: nat, t: nat)
    requires IsExecution(p, states, run) && i < |run| && run[i] == TrySwap(t)
    ensures states[i].tail == None ==> At(states[i + 1], t, Inside) && states[i + 1].tail == Some(t)
    ensures states[i].tail != None ==> At(states[i + 1], t, Out) && states[i + 1].tail == states[i].tail
    ensures states[i].tail != None ==> forall u: nat :: u != t && Names(states[i], u) ==>
      Names(states[i + 1], u) && states[i + 1].th[u] == states[i].th[u]
  {
    assert StepAt(p, states, run, i);
  }

  /** Between its two steps it stays out of the queue. */
  lemma {:induction false} TrylockWaitsForNobody(p: Policy, states: seq<State>, run: seq<Label>, i: nat, j: nat, t: nat)
    requires IsExecution(p, states, run) && i < j < |states| && run[i] == TryLock(t)
    requires forall k: nat :: i < k < j ==> run[k] != TrySwap(t)
    ensures At(states[j], t, Trying)
  {
    assert StepAt(p, states, run, j - 1);
    if i + 1 < j {
      TrylockWaitsForNobody(p, states, run, i, j - 1, t);
      assert run[j - 1] != TrySwap(t);
    }
  }

  /** In lock, without having it. */
  predicate InLock(s: State, t: nat) {
    Names(s, t) && (s.th[t].pc.Arriving? || s.th[t].pc.Clearing? || s.th[t].pc.Linking? || s.th[t].pc.Waiting?)
  }

  /** lock returns only with the lock; */
  lemma {:induction false} LockReturnsInside(p: Policy, states: seq<State>, run: seq<Label>, i: nat, j: nat, t: nat)
    requires IsExecution(p, states, run) && i < j < |states| && run[i] == Lock(t)
    requires forall k: nat :: i < k <= j ==> NotInside(states, k, t)
    ensures InLock(states[j], t)
  {
    assert NotInside(states, j, t);
    if i + 1 < j {
      LockReturnsInside(p, states, run, i, j - 1, t);
      LockGoesOn(p, states, run, j - 1, t);
    } else {
      EntersLock(p, states, run, i, t);
    }
  }

  predicate NotInside(states: seq<State>, k: nat, t: nat) {
    k < |states| ==> !At(states[k], t, Inside)
  }

  lemma LockGoesOn(p: Policy, states: seq<State>, run: seq<Label>, j: nat, t: nat)
    requires IsExecution(p, states, run) && j < |run| && InLock(states[j], t)
    ensures InLock(states[j + 1], t) || At(states[j + 1], t, Inside)
  {
    assert StepAt(p, states, run, j);
    StaysInLock(p, states[j], run[j], t);
  }

  lemma EntersLock(p: Policy, states: seq<State>, run: seq<Label>, i: nat, t: nat)
    requires IsExecution(p, states, run) && i < |run| && run[i] == Lock(t)
    ensures InLock(states[i + 1], t)
  {
    assert StepAt(p, states, run, i);
  }

  lemma StaysInLock(p: Policy, s: State, a: Label, t: nat)
    requires Enabled(s, a) && InLock(s, t)
    ensures InLock(Do(p, s, a), t) || At(Do(p, s, a), t, Inside)
  {
  }

  /** and who has it keeps it until it unlocks. */
  lemma InsideUntilUnlock(p: Policy, states: seq<State>, run: seq<Label>, i: nat, t: nat)
    requires IsExecution(p, states, run) && i < |run| && At(states[i], t, Inside)
    ensures At(states[i + 1], t, Inside) <==> run[i] != Unlock(t)
  {
    assert StepAt(p, states, run, i);
  }
}
