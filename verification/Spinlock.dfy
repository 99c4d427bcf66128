/**
 The test-and-set lock of spinlock.c over the waiting policies of waiting_policy.h: many threads
 compete for one word, and may sleep on it in the kernel. Every access to the word, FUTEX_WAIT
 and FUTEX_WAKE are one step each, and steps of different threads interleave freely.
 */
module Spinlock {
  import opened TwoQueue
  import opened WaitingPolicy

  datatype Pc =
    | Out
    | Trying                  // in trylock, about to exchange the word
    | Competing               // in lock, about to exchange the word
    | Waiting(phase: Phase)   // in lock, in waiting_policy_sleep
    | Inside
    | OwesWake                // released the word, about to call FUTEX_WAKE

  datatype State = State(word: Word, pcs: seq<Pc>)

  datatype Label =
    | Lock(t: nat)
    | TryLock(t: nat)
    | Exchange(t: nat)
    | Wait(t: nat, cause: Cause)
    | Release(t: nat)
    | FutexWake(t: nat, woken: Option<nat>)

  predicate Is(s: State, t: nat, pc: Pc) {
    t < |s.pcs| && s.pcs[t] == pc
  }

  predicate Waits(s: State, t: nat) {
    t < |s.pcs| && s.pcs[t].Waiting?
  }

  predicate Sleeps(s: State, t: nat) {
    Is(s, t, Waiting(Parked))
  }

  function Becomes(s: State, t: nat, pc: Pc): State
    requires t < |s.pcs|
  {
    s.(pcs := s.pcs[t := pc])
  }

  ghost predicate NobodyParked(s: State) {
    forall t: nat :: !Sleeps(s, t)
  }

  ghost predicate Enabled(s: State, a: Label) {
    match a
    case Lock(t) => Is(s, t, Out)
    case TryLock(t) => Is(s, t, Out)
    case Exchange(t) => Is(s, t, Competing) || Is(s, t, Trying)
    case Wait(t, cause) => Waits(s, t) && cause != Woken && CanMove(s.pcs[t].phase, cause)
    case Release(t) => Is(s, t, Inside)
    case FutexWake(t, woken) =>
      // one sleeper is woken if there is any; which one is up to the kernel
      Is(s, t, OwesWake) && if woken.Some? then Sleeps(s, woken.value) else NobodyParked(s)
  }

  ghost function Do(p: Policy, s: State, a: Label): State
    requires Enabled(s, a)
  {
    match a
    case Lock(t) => Becomes(s, t, Competing)
    case TryLock(t) => Becomes(s, t, Trying)
    case Exchange(t) =>
      if s.word == UNLOCKED then Becomes(s, t, Inside).(word := LOCKED)
      else Becomes(s, t, if s.pcs[t] == Trying then Out else Waiting(Start(p)))
    case Wait(t, cause) =>
      var next := Move(s.pcs[t].phase, s.word, cause);
      Becomes(s, t, if next == None then Competing else Waiting(next.value))
    case Release(t) => Becomes(s, t, if p == SpinOnly then Out else OwesWake).(word := UNLOCKED)
    case FutexWake(t, woken) =>
      if woken == None then Becomes(s, t, Out)
      else Becomes(Becomes(s, t, Out), woken.value, Waiting(Resuming))
  }

  ghost predicate Init(s: State) {
    s.word == UNLOCKED && forall t: nat :: t < |s.pcs| ==> Is(s, t, Out)
  }

  ghost predicate IsStep(p: Policy, s: State, a: Label, s': State) {
    Enabled(s, a) && s' == Do(p, s, a)
  }

  ghost predicate IsExecution(p: Policy, states: seq<State>, run: seq<Label>) {
    && |states| == |run| + 1
    && Init(states[0])
    && forall i: nat :: i < |run| ==> StepAt(p, states, run, i)
  }

  ghost predicate StepAt(p: Policy, states: seq<State>, run: seq<Label>, i: nat)
    requires i < |run| && |states| == |run| + 1
  {
    IsStep(p, states[i], run[i], states[i + 1])
  }

  // ----- Safety ------------------------------------------------------------------------

  ghost predicate OnlyInside(s: State, h: nat) {
    Is(s, h, Inside) && forall t: nat :: Is(s, t, Inside) ==> t == h
  }

  ghost predicate NobodyInside(s: State) {
    forall t: nat :: !Is(s, t, Inside)
  }

  /** The word tells who is inside: exactly one thread, or nobody. */
  ghost predicate Exclusive(s: State) {
    if s.word == LOCKED then exists h: nat :: OnlyInside(s, h) else NobodyInside(s)
  }

  /** A thread in lock that can run, unlike one that is parked. */
  predicate Awake(s: State, t: nat) {
    t < |s.pcs| && (s.pcs[t].Competing? || (s.pcs[t].Waiting? && !s.pcs[t].phase.Parked?))
  }

  /** Somebody will see that the word is UNLOCKED: a thread that is awake, or one about to be
      woken because a releaser has not called FUTEX_WAKE yet. */
  ghost predicate Attended(s: State) {
    exists t: nat :: Awake(s, t) || Is(s, t, OwesWake)
  }

  /** Without parking, threads only ever spin. */
  ghost predicate AllSpin(s: State) {
    forall t: nat :: Waits(s, t) ==> s.pcs[t].phase == Resuming
  }

  ghost predicate Inv(p: Policy, s: State) {
    && Exclusive(s)
    && (p == SpinOnly ==> AllSpin(s))
    && (s.word == UNLOCKED && !NobodyParked(s) ==> Attended(s))
  }

  /** A step moves its own thread, and a thread it wakes up. */
  lemma OthersStay(p: Policy, s: State, a: Label, u: nat)
    requires Enabled(s, a) && u < |s.pcs| && u != a.t
    ensures |Do(p, s, a).pcs| == |s.pcs|
    ensures Do(p, s, a).pcs[u] == s.pcs[u] || (Sleeps(s, u) && Is(Do(p, s, a), u, Waiting(Resuming)))
  {
  }

  lemma StepKeepsExclusive(p: Policy, s: State, a: Label)
    requires Exclusive(s) && Enabled(s, a)
    ensures Exclusive(Do(p, s, a))
  {
    var s' := Do(p, s, a);
    forall u: nat | Is(s', u, Inside) && u != a.t ensures Is(s, u, Inside) {
      OthersStay(p, s, a, u);
    }
    if s'.word == LOCKED {
      if s.word == LOCKED {
        var h: nat :| OnlyInside(s, h);
        if h != a.t {
          OthersStay(p, s, a, h);
        }
        assert OnlyInside(s', h);
      } else {
        assert OnlyInside(s', a.t);
      }
    } else if s.word == LOCKED {
      var h: nat :| OnlyInside(s, h);
      assert h == a.t;
    }
  }

  lemma StepKeepsAttended(p: Policy, s: State, a: Label)
    requires Inv(p, s) && Enabled(s, a) && Do(p, s, a).word == UNLOCKED && !NobodyParked(Do(p, s, a))
    requires p == SpinOnly ==> AllSpin(Do(p, s, a))
    ensures Attended(Do(p, s, a))
  {
    var s' := Do(p, s, a);
    var k: nat :| Sleeps(s', k);
    assert p != SpinOnly by {
      assert Waits(s', k);
    }
    if a.FutexWake? && a.woken.Some? {
      assert Awake(s', a.woken.value);
    } else if a.Release? {
      assert Is(s', a.t, OwesWake);
    } else if !Awake(s', a.t) {
      assert Sleeps(s, k);
      var u: nat :| Awake(s, u) || Is(s, u, OwesWake);
      assert s'.pcs[u] == s.pcs[u];
      assert Awake(s', u) || Is(s', u, OwesWake);
    }
  }

  lemma StepKeepsInv(p: Policy, s: State, a: Label)
    requires Inv(p, s) && Enabled(s, a)
    ensures Inv(p, Do(p, s, a))
  {
    var s' := Do(p, s, a);
    StepKeepsExclusive(p, s, a);
    if p == SpinOnly {
      forall u: nat | Waits(s', u) ensures s'.pcs[u].phase == Resuming {
        if u != a.t {
          OthersStay(p, s, a, u);
        }
        assert Waits(s, u) ==> s.pcs[u].phase == Resuming;
      }
    }
    if s'.word == UNLOCKED && !NobodyParked(s') {
      StepKeepsAttended(p, s, a);
    }
  }

  lemma InitIsSafe(p: Policy, s: State)
    requires Init(s)
    ensures Inv(p, s)
  {
    forall t: nat ensures !Is(s, t, Inside) && !Waits(s, t) && !Sleeps(s, t) {
      if t < |s.pcs| {
        assert Is(s, t, Out);
      }
    }
  }

  lemma {:induction false} ReachableStatesAreSafe(p: Policy, states: seq<State>, run: seq<Label>, i: nat)
    requires IsExecution(p, states, run) && i < |states|
    ensures Inv(p, states[i])
  {
    if i == 0 {
      InitIsSafe(p, states[0]);
    } else {
      ReachableStatesAreSafe(p, states, run, i - 1);
      assert StepAt(p, states, run, i - 1);
      StepKeepsInv(p, states[i - 1], run[i - 1]);
    }
  }

  lemma MutualExclusion(p: Policy, states: seq<State>, run: seq<Label>, i: nat, t: nat, u: nat)
    requires IsExecution(p, states, run) && i < |states|
    requires Is(states[i], t, Inside) && Is(states[i], u, Inside)
    ensures t == u && states[i].word == LOCKED
  {
    ReachableStatesAreSafe(p, states, run, i);
  }

  // ----- Calls -------------------------------------------------------------------------

  /** An exchange takes the word exactly when it finds it UNLOCKED. Else a trylock returns, and a lock
      starts to wait. */
  lemma ExchangeIff(p: Policy, states: seq<State>, run: seq<Label>, i: nat, t: nat)
    requires IsExecution(p, states, run) && i < |run| && run[i] == Exchange(t)
    ensures Is(states[i + 1], t, Inside) <==> states[i].word == UNLOCKED
    ensures Is(states[i + 1], t, Inside) ==> states[i + 1].word == LOCKED
    ensures states[i].word == LOCKED && Is(states[i], t, Trying) ==> Is(states[i + 1], t, Out)
    ensures states[i].word == LOCKED && Is(states[i], t, Competing) ==> Is(states[i + 1], t, Waiting(Start(p)))
  {
    assert StepAt(p, states, run, i);
  }

  /** In lock, without the word. */
  predicate InLock(s: State, t: nat) {
    t < |s.pcs| && (s.pcs[t].Competing? || s.pcs[t].Waiting?)
  }

  lemma StaysInLock(p: Policy, s: State, a: Label, t: nat)
    requires Enabled(s, a) && InLock(s, t)
    ensures InLock(Do(p, s, a), t) || (Is(Do(p, s, a), t, Inside) && a == Exchange(t) && s.word == UNLOCKED)
  {
    if a.t != t {
      OthersStay(p, s, a, t);
    }
  }

  /** No thread leaves lock without the word: after Lock(t), t is in lock until it is inside. */
  lemma {:induction false} LockReturnsInside(p: Policy, states: seq<State>, run: seq<Label>, i: nat, j: nat, t: nat)
    requires IsExecution(p, states, run) && i < j < |states| && run[i] == Lock(t)
    requires forall k: nat :: i < k <= j ==> !Is(states[k], t, Inside)
    ensures InLock(states[j], t)
  {
    assert StepAt(p, states, run, j - 1);
    if i + 1 < j {
      LockReturnsInside(p, states, run, i, j - 1, t);
      StaysInLock(p, states[j - 1], run[j - 1], t);
      assert !Is(states[j], t, Inside);
    }
  }

  /** And TryLock(t) leads to t's exchange, with no other step of t in between. */
  lemma {:induction false} TryLockExchanges(p: Policy, states: seq<State>, run: seq<Label>, i: nat, j: nat, t: nat)
    requires IsExecution(p, states, run) && i < j < |states| && run[i] == TryLock(t)
    requires forall k: nat :: i < k < j ==> run[k] != Exchange(t)
    ensures Is(states[j], t, Trying)
  {
    assert StepAt(p, states, run, j - 1);
    if i + 1 < j {
      TryLockExchanges(p, states, run, i, j - 1, t);
      if run[j - 1].t != t {
        OthersStay(p, states[j - 1], run[j - 1], t);
      }
      assert run[j - 1] != Exchange(t);
    }
  }

  /** Who is inside stays there until it releases the word, which unlocks it. */
  lemma InsideUntilRelease(p: Policy, states: seq<State>, run: seq<Label>, i: nat, t: nat)
    requires IsExecution(p, states, run) && i < |run| && Is(states[i], t, Inside)
    ensures run[i] == Release(t) ==> states[i + 1].word == UNLOCKED && !Is(states[i + 1], t, Inside)
    ensures run[i] != Release(t) ==> Is(states[i + 1], t, Inside)
  {
    assert StepAt(p, states, run, i);
    if run[i].t != t {
      OthersStay(p, states[i], run[i], t);
    }
  }

  // ----- Progress ----------------------------------------------------------------------

  /** A step of a thread that is already in lock, or of a releaser: nobody arrives, and the kernel
      ends no FUTEX_WAIT but those of threads that are woken. */
  predicate Helps(a: Label) {
    a.Exchange? || (a.Wait? && a.cause == Itself) || a.FutexWake?
  }

  /** At most k such steps, well chosen, let somebody take the lock. */
  ghost predicate CanBeTaken(p: Policy, s: State, k: nat)
    decreases k
  {
    s.word == LOCKED || (k > 0 && exists a :: Helps(a) && Enabled(s, a) && CanBeTaken(p, Do(p, s, a), k - 1))
  }

  lemma {:induction false} AwakeTakes(p: Policy, s: State, u: nat, k: nat)
    requires s.word == UNLOCKED && Awake(s, u)
    requires k >= if s.pcs[u].Competing? then 1 else 1 + ToGo(s.pcs[u].phase)
    ensures CanBeTaken(p, s, k)
    decreases k
  {
    var a := if s.pcs[u].Competing? then Exchange(u) else Wait(u, Itself);
    assert Helps(a) && Enabled(s, a);
    if a.Exchange? {
      assert CanBeTaken(p, Do(p, s, a), k - 1);
    } else {
      UnlockedIsSeen(s.pcs[u].phase, Itself);
      AwakeTakes(p, Do(p, s, a), u, k - 1);
    }
  }

  /** While the lock is free, waiters are never all asleep for good: if any thread waits in lock,
      awake or parked, four steps of threads that can run let one of them take the lock. */
  lemma FreeLockIsTaken(p: Policy, s: State, t: nat)
    requires Inv(p, s) && s.word == UNLOCKED && (Awake(s, t) || Sleeps(s, t))
    ensures CanBeTaken(p, s, 4)
  {
    if u: nat :| Awake(s, u) {
      AwakeTakes(p, s, u, 4);
    } else {
      assert !NobodyParked(s);
      var u: nat :| Is(s, u, OwesWake);
      var a := FutexWake(u, Some(t));
      assert Enabled(s, a) && Helps(a);
      AwakeTakes(p, Do(p, s, a), t, 3);
    }
  }

  /** No wake-up is lost in any run: when the word is UNLOCKED and a thread waits in lock, somebody
      who can run will see it, and can bring about that the lock is taken. */
  lemma NoLostWakeUp(p: Policy, states: seq<State>, run: seq<Label>, i: nat, t: nat)
    requires IsExecution(p, states, run) && i < |states|
    requires states[i].word == UNLOCKED && (Awake(states[i], t) || Sleeps(states[i], t))
    ensures Attended(states[i]) && CanBeTaken(p, states[i], 4)
  {
    ReachableStatesAreSafe(p, states, run, i);
    FreeLockIsTaken(p, states[i], t);
  }
}
