/**
 The short-section-first lock of uta.c, one release at a time: an adaptive length threshold
 decides which waiter of the main queue may be favoured, and a batch limit decides when the
 oldest waiter has to be served.
 */
module Uta {
  import opened TwoQueue

  const SHORT_BATCH_THRESHOLD: nat := 1000
  const ADJUST_FREQ: nat := 100
  const DEFAULT_SHORT_THRESHOLD: int := 10000

  /** A queued thread with the predicted length of its critical section (`cri_len`). */
  datatype Waiter<T> = Waiter(who: T, len: int)

  datatype State<T> = State(lock: Lock<Waiter<T>>, threshold: int)

  function Init<T>(): State<T> { State(Free, DEFAULT_SHORT_THRESHOLD) }

  /** The scan: the first waiter shorter than the threshold, or the length when there is none. */
  function FirstShort<T>(ws: seq<Waiter<T>>, threshold: int): (j: nat)
    ensures j <= |ws|
    ensures forall i :: 0 <= i < j ==> ws[i].len >= threshold
    ensures j < |ws| ==> ws[j].len < threshold
  {
    if ws == [] || ws[0].len < threshold then 0 else 1 + FirstShort(ws[1..], threshold)
  }

  lemma {:induction false} FirstShortIs<T>(ws: seq<Waiter<T>>, threshold: int, j: nat)
    requires j < |ws| && ws[j].len < threshold
    requires forall i :: 0 <= i < j ==> ws[i].len >= threshold
    ensures FirstShort(ws, threshold) == j
  {
  }

  /** Arrivals join the main queue, or take a free lock with batch 0. */
  function Arrive<T>(s: State<T>, w: Waiter<T>): State<T> {
    match s.lock
    case Free => s.(lock := Held(w, Queue([], []), 0))
    case Held(o, q, b) => s.(lock := Held(o, q.(main := q.main + [w]), b))
  }

  /** A release that has seen the first `visible` waiters of the main queue; later ones have
      exchanged the tail but are not linked yet.  With an empty main queue there is no scan. */
  predicate MayRelease<T>(s: State<T>, visible: nat) {
    s.lock.Held? && visible <= |s.lock.q.main| && (visible == 0 ==> s.lock.q.main == [])
  }

  function Decision<T>(s: State<T>, visible: nat): Choice
    requires MayRelease(s, visible)
  {
    var j := FirstShort(s.lock.q.main[..visible], s.threshold);
    if s.lock.batch < SHORT_BATCH_THRESHOLD && j < visible then Pick(j) else Oldest
  }

  /** The scan ran and found nobody. */
  predicate Missed<T>(s: State<T>, visible: nat)
    requires MayRelease(s, visible)
  {
    visible > 0 && s.lock.batch < SHORT_BATCH_THRESHOLD && Decision(s, visible).Oldest?
  }

  /** Every hundredth pick lowers the threshold by one. */
  function AfterPick(threshold: int, batch: nat): int {
    if batch % ADJUST_FREQ == ADJUST_FREQ - 1 then threshold - 1 else threshold
  }

  function Release<T>(s: State<T>, visible: nat): State<T>
    requires MayRelease(s, visible)
  {
    var Held(_, q, batch) := s.lock;
    var c := Decision(s, visible);
    if q.Order() == [] then
      s.(lock := Free)
    else if c.Pick? then
      State(Held(Granted(q, c), After(q, c), batch + 1), AfterPick(s.threshold, batch))
    else
      State(Held(Granted(q, c), After(q, c), 1),
            if Missed(s, visible) then s.threshold + 1 else s.threshold)
  }

  ghost predicate IsNew<T(!new)>(s: State<T>, w: Waiter<T>) {
    s.lock.Held? ==>
      && s.lock.owner.who != w.who
      && forall i :: 0 <= i < |s.lock.q.Order()| ==> s.lock.q.Order()[i].who != w.who
  }

  ghost predicate Step<T(!new)>(s: State<T>, s': State<T>) {
    || s' == s
    || (exists w :: IsNew(s, w) && s' == Arrive(s, w))
    || (exists visible :: MayRelease(s, visible) && s' == Release(s, visible))
  }

  ghost predicate StepAt<T(!new)>(run: seq<State<T>>, i: nat)
    requires i + 1 < |run|
  {
    Step(run[i], run[i + 1])
  }

  ghost predicate IsRun<T(!new)>(run: seq<State<T>>) {
    && |run| > 0 && run[0] == Init()
    && forall i: nat :: i < |run| - 1 ==> StepAt(run, i)
  }

  /** What a step was: nothing, an arrival, or a release that saw so many waiters. */
  datatype Event<T> = Stutter | Arrival(w: Waiter<T>) | Unlock(visible: nat)

  ghost predicate Does<T(!new)>(s: State<T>, e: Event<T>, s': State<T>) {
    match e
    case Stutter => s' == s
    case Arrival(w) => IsNew(s, w) && s' == Arrive(s, w)
    case Unlock(visible) => MayRelease(s, visible) && s' == Release(s, visible)
  }

  ghost predicate DoesAt<T(!new)>(run: seq<State<T>>, evs: seq<Event<T>>, i: nat)
    requires i < |evs| && |run| == |evs| + 1
  {
    Does(run[i], evs[i], run[i + 1])
  }

  /** A run together with what its steps were. */
  ghost predicate IsRunOf<T(!new)>(run: seq<State<T>>, evs: seq<Event<T>>) {
    && |run| == |evs| + 1 && run[0] == Init()
    && forall i: nat :: i < |evs| ==> DoesAt(run, evs, i)
  }

  lemma DoesStep<T(!new)>(s: State<T>, e: Event<T>, s': State<T>)
    requires Does(s, e, s')
    ensures Step(s, s')
  {
  }

  lemma RunOfIsRun<T(!new)>(run: seq<State<T>>, evs: seq<Event<T>>)
    requires IsRunOf(run, evs)
    ensures IsRun(run)
  {
    forall i: nat | i < |run| - 1 ensures StepAt(run, i) {
      assert DoesAt(run, evs, i);
      DoesStep(run[i], evs[i], run[i + 1]);
    }
  }

  function Locks<T>(run: seq<State<T>>): (ls: seq<Lock<Waiter<T>>>)
    ensures |ls| == |run| && forall i :: 0 <= i < |run| ==> ls[i] == run[i].lock
  {
    seq(|run|, i requires 0 <= i < |run| => run[i].lock)
  }

  // ----- Who is served -----------------------------------------------------------------

  /** main[j] is seen, shorter than the threshold, and nobody before it is. */
  ghost predicate IsFirstShort<T>(s: State<T>, visible: nat, j: nat)
    requires MayRelease(s, visible)
  {
    && j < visible && s.lock.q.main[j].len < s.threshold
    && forall i :: 0 <= i < j ==> s.lock.q.main[i].len >= s.threshold
  }

  ghost predicate SeesShort<T>(s: State<T>, visible: nat)
    requires MayRelease(s, visible)
  {
    exists i :: 0 <= i < visible && s.lock.q.main[i].len < s.threshold
  }

  /** main[j] holds the lock, and those before it have joined the secondary queue. */
  function Serving<T>(l: Lock<T>, j: nat): Lock<T>
    requires l.Held? && j < |l.q.main|
  {
    Held(l.q.main[j], Queue(l.q.sec + l.q.main[..j], l.q.main[j + 1..]), l.batch + 1)
  }

  /** Below the batch limit a release serves the first short waiter it sees: the batch rises by one,
      and exactly those before it join the secondary queue. In every other case, also at the limit
      with short waiters in sight, it serves the oldest of both queues, leaves one queue in arrival
      order, and restarts the batch at one. Only with nobody queued is the lock free. */
  lemma ReleaseServes<T>(s: State<T>, visible: nat)
    requires MayRelease(s, visible)
    ensures SeesShort(s, visible) && s.lock.batch < 1000 ==>
      exists j: nat :: IsFirstShort(s, visible, j) && Release(s, visible).lock == Serving(s.lock, j)
    ensures !(SeesShort(s, visible) && s.lock.batch < 1000) && s.lock.q.sec + s.lock.q.main != [] ==>
      var line := s.lock.q.sec + s.lock.q.main;
      Release(s, visible).lock == Held(line[0], Queue([], line[1..]), 1)
    ensures s.lock.q.sec + s.lock.q.main == [] ==> Release(s, visible) == State(Free, s.threshold)
  {
    var seen := s.lock.q.main[..visible];
    assert forall i :: 0 <= i < visible ==> seen[i] == s.lock.q.main[i];
    var r := FirstShort(seen, s.threshold);
    if SeesShort(s, visible) {
      assert IsFirstShort(s, visible, r);
      assert s.lock.q.Order() != [];
    }
  }

  /** A newcomer gets a free lock with batch 0, and otherwise stands last, behind everybody queued;
      nobody else is affected. */
  lemma NewcomerIsLast<T>(s: State<T>, w: Waiter<T>)
    ensures Arrive(s, w).lock.Held? && Arrive(s, w).threshold == s.threshold
    ensures s.lock.Free? ==> Arrive(s, w).lock == Held(w, Queue([], []), 0)
    ensures s.lock.Held? ==>
      var l := Arrive(s, w).lock;
      && l.owner == s.lock.owner && l.batch == s.lock.batch && l.q.sec == s.lock.q.sec
      && l.q.Order() == s.lock.q.Order() + [w]
  {
    if s.lock.Held? {
      assert s.lock.q.sec + (s.lock.q.main + [w]) == s.lock.q.sec + s.lock.q.main + [w];
    }
  }

  // ----- The invariant -----------------------------------------------------------------

  /** Every waiter of the secondary queue is at least as long as the threshold. */
  ghost predicate SecIsLong<T>(s: State<T>) {
    s.lock.Held? ==> forall i :: 0 <= i < |s.lock.q.sec| ==> s.lock.q.sec[i].len >= s.threshold
  }

  ghost predicate Inv<T(!new)>(s: State<T>) {
    Sound(SHORT_BATCH_THRESHOLD, s.lock) && SecIsLong(s)
  }

  /** uta.c is an instance of the bounded queue discipline: cap 1000, restarting from 1. */
  lemma StepIsBounded<T(!new)>(s: State<T>, s': State<T>)
    requires Step(s, s')
    ensures TwoQueue.Step(SHORT_BATCH_THRESHOLD, 1, s.lock, s'.lock)
  {
    if s' == s {
    } else if visible: nat :| MayRelease(s, visible) && s' == Release(s, visible) {
      if s.lock.q.Order() != [] {
        assert HandsOff(SHORT_BATCH_THRESHOLD, 1, s.lock, s'.lock, Decision(s, visible));
      } else {
        assert Vacates(s.lock, s'.lock);
      }
    } else {
      var w :| IsNew(s, w) && s' == Arrive(s, w);
      assert s.lock.Held? ==> w !in [s.lock.owner] + s.lock.q.Order();
      assert Arrives(s.lock, s'.lock, w);
    }
  }

  lemma SecStaysLong<T(!new)>(s: State<T>, visible: nat)
    requires SecIsLong(s) && MayRelease(s, visible)
    ensures SecIsLong(Release(s, visible))
  {
    var s', c := Release(s, visible), Decision(s, visible);
    if c.Pick? {
      var q := s.lock.q;
      assert s'.lock.q.sec == q.sec + q.main[..c.j];
      assert forall i :: 0 <= i < c.j ==> q.main[i] == q.main[..visible][i];
      assert forall i :: 0 <= i < c.j ==> q.main[i].len >= s.threshold;
    }
  }

  lemma StepKeepsInv<T(!new)>(s: State<T>, s': State<T>)
    requires Inv(s) && Step(s, s')
    ensures Inv(s')
  {
    StepIsBounded(s, s');
    StepIsSound(SHORT_BATCH_THRESHOLD, 1, s.lock, s'.lock);
    if visible: nat :| MayRelease(s, visible) && s' == Release(s, visible) {
      SecStaysLong(s, visible);
    }
  }

  lemma {:induction false} RunKeepsInv<T(!new)>(run: seq<State<T>>, i: nat)
    requires IsRun(run) && i < |run|
    ensures Inv(run[i])
  {
    if i > 0 {
      RunKeepsInv(run, i - 1);
      assert StepAt(run, i - 1);
      StepKeepsInv(run[i - 1], run[i]);
    }
  }

  // ----- Who may overtake whom ---------------------------------------------------------

  /** In every reachable state a release grants a waiter strictly shorter than each older waiter
      it passes; a waiter not shorter than the threshold passes nobody. */
  lemma OvertakersAreShorter<T(!new)>(run: seq<State<T>>, i: nat, visible: nat, m: nat)
    requires IsRun(run) && i < |run| && MayRelease(run[i], visible)
    requires m < Rank(run[i].lock.q, Decision(run[i], visible))
    ensures var s := run[i];
            && Release(s, visible).lock.Held?
            && m < |s.lock.q.Order()|
            && Release(s, visible).lock.owner.len < s.threshold <= s.lock.q.Order()[m].len
  {
    RunKeepsInv(run, i);
    var s := run[i];
    var c := Decision(s, visible);
    assert s.lock.q.main[..visible][c.j] == s.lock.q.main[c.j];
    if m >= |s.lock.q.sec| {
      assert s.lock.q.Order()[m] == s.lock.q.main[..visible][m - |s.lock.q.sec|];
    }
  }

  /** A scan, allowed by the batch, that saw somebody and nobody short. */
  ghost predicate IsMiss<T>(s: State<T>, e: Event<T>) {
    && e.Unlock? && MayRelease(s, e.visible) && e.visible > 0
    && s.lock.batch < SHORT_BATCH_THRESHOLD
    && forall i :: 0 <= i < e.visible ==> s.lock.q.main[i].len >= s.threshold
  }

  /** A scan, allowed by the batch, that saw somebody short, a hundredth time. */
  ghost predicate IsHundredthPick<T>(s: State<T>, e: Event<T>) {
    && e.Unlock? && MayRelease(s, e.visible)
    && s.lock.batch < SHORT_BATCH_THRESHOLD && s.lock.batch % 100 == 99
    && exists i :: 0 <= i < e.visible && s.lock.q.main[i].len < s.threshold
  }

  /** The threshold moves with those two events, and with nothing else. */
  lemma EventMovesThreshold<T(!new)>(s: State<T>, e: Event<T>, s': State<T>)
    requires Does(s, e, s')
    ensures s'.threshold > s.threshold <==> IsMiss(s, e)
    ensures s'.threshold < s.threshold <==> IsHundredthPick(s, e)
    ensures s.threshold - 1 <= s'.threshold <= s.threshold + 1
  {
    if e.Unlock? {
      var seen := s.lock.q.main[..e.visible];
      assert forall i :: 0 <= i < e.visible ==> seen[i] == s.lock.q.main[i];
      if IsHundredthPick(s, e) {
        var i :| 0 <= i < e.visible && s.lock.q.main[i].len < s.threshold;
        assert seen[i].len < s.threshold;
      }
      assert e.visible > 0 ==> s.lock.q.Order() != [];
    }
  }

  /** A release raises the threshold exactly when it is a miss: the batch allowed a scan, which saw
      somebody and nobody short. It then serves the oldest, empties the secondary queue and
      restarts the batch. */
  lemma ThresholdRisesIffMiss<T(!new)>(s: State<T>, visible: nat)
    requires MayRelease(s, visible)
    ensures Release(s, visible).threshold > s.threshold <==> IsMiss(s, Unlock(visible))
    ensures IsMiss(s, Unlock(visible)) ==>
      && s.lock.q.Order() != []
      && Release(s, visible).lock == Held(s.lock.q.Order()[0], Queue([], s.lock.q.Order()[1..]), 1)
  {
    EventMovesThreshold(s, Unlock(visible), Release(s, visible));
  }

  // ----- Starvation --------------------------------------------------------------------

  lemma RunIsBounded<T(!new)>(run: seq<State<T>>)
    requires IsRun(run)
    ensures TwoQueue.IsRun(SHORT_BATCH_THRESHOLD, 1, Locks(run))
  {
    forall i: nat | i < |run| - 1 ensures TwoQueue.StepAt(SHORT_BATCH_THRESHOLD, 1, Locks(run), i) {
      assert StepAt(run, i);
      StepIsBounded(run[i], run[i + 1]);
    }
  }

  lemma BudgetHere(k: nat, batch: nat)
    requires batch <= SHORT_BATCH_THRESHOLD
    ensures Budget(SHORT_BATCH_THRESHOLD, 1, k, batch) == Bound(k, batch)
  {
  }

  /** How long a waiter with k older waiters may have to wait, when the batch is b. */
  function Bound(k: nat, b: nat): int { k * 1000 + 1001 - b }

  ghost predicate ServedInTime<T(!new)>(ls: seq<Lock<Waiter<T>>>, lo: nat, hi: nat, w: Waiter<T>, bound: int) {
    && lo < hi < |ls| && ls[hi].Held? && ls[hi].owner == w
    && HandoffsBetween(ls, lo, hi) <= bound
  }

  lemma {:induction false} BoundedRun<T(!new)>(ls: seq<Lock<Waiter<T>>>, lo: nat, w: Waiter<T>, k: nat)
    returns (hi: nat)
    requires TwoQueue.IsRun(SHORT_BATCH_THRESHOLD, 1, ls) && lo < |ls| && Waits(ls[lo], w, k)
    ensures ls[lo].batch <= 1000
    ensures ServedInTime(ls, lo, hi, w, Bound(k, ls[lo].batch))
         || HandoffsBetween(ls, lo, |ls| - 1) < Bound(k, ls[lo].batch)
  {
    hi := TwoQueue.NoStarvation(SHORT_BATCH_THRESHOLD, 1, ls, lo, w, k);
    BudgetHere(k, ls[lo].batch);
  }

  /** In any run of locks and unlocks, a waiter with k waiters before it, while the holder's
      batch is b, is served within k * 1000 + 1001 - b handoffs. */
  lemma {:induction false} NoStarvation<T(!new)>(run: seq<State<T>>, lo: nat, w: Waiter<T>, k: nat)
    returns (hi: nat)
    requires IsRun(run) && lo < |run| && Waits(run[lo].lock, w, k)
    ensures run[lo].lock.batch <= 1000
    ensures ServedInTime(Locks(run), lo, hi, w, Bound(k, run[lo].lock.batch))
         || HandoffsBetween(Locks(run), lo, |run| - 1) < Bound(k, run[lo].lock.batch)
  {
    RunIsBounded(run);
    hi := BoundedRun(Locks(run), lo, w, k);
  }

  // ----- The bound is exact --------------------------------------------------------------

  ghost predicate IsPath<T(!new)>(path: seq<State<T>>) {
    |path| > 0 && forall i: nat :: i < |path| - 1 ==> StepAt(path, i)
  }

  /** All waiters are long, and the threads from `newcomer` on have not come yet. */
  ghost predicate Patient(s: State<nat>, newcomer: nat) {
    && s.lock.Held? && Sound(SHORT_BATCH_THRESHOLD, s.lock) && s.lock.owner.who < newcomer
    && (forall i :: 0 <= i < |s.lock.q.Order()| ==> s.lock.q.Order()[i].who < newcomer)
    && (forall i :: 0 <= i < |s.lock.q.Order()| ==> s.lock.q.Order()[i].len >= s.threshold)
  }

  lemma MainIsLong(s: State<nat>, newcomer: nat, i: nat)
    requires Patient(s, newcomer) && i < |s.lock.q.main|
    ensures s.lock.q.main[i].len >= s.threshold
  {
    assert s.lock.q.Order()[|s.lock.q.sec| + i] == s.lock.q.main[i];
  }

  /** A short newcomer arrives, and the next release picks it. */
  lemma {:induction false} ShortNewcomerPasses(s: State<nat>, newcomer: nat) returns (s1: State<nat>, s2: State<nat>)
    requires Patient(s, newcomer) && s.lock.batch < SHORT_BATCH_THRESHOLD
    ensures Step(s, s1) && !IsHandoff(s.lock, s1.lock) && Sound(SHORT_BATCH_THRESHOLD, s1.lock)
    ensures Step(s1, s2) && IsHandoff(s1.lock, s2.lock)
    ensures Patient(s2, newcomer + 1)
    ensures s1.lock.Held? && s2.lock.batch == s.lock.batch + 1
    ensures s2.lock.q.Order() == s.lock.q.Order() <= s1.lock.q.Order()
  {
    var q, w := s.lock.q, Waiter(newcomer, s.threshold - 1);
    var n := |q.main|;
    s1 := Arrive(s, w);
    var main := q.main + [w];
    forall i | 0 <= i < n ensures main[i].len >= s.threshold {
      MainIsLong(s, newcomer, i);
    }
    assert IsNew(s, w);
    FirstShortIs(main, s.threshold, n);
    assert main[..n + 1] == main && main[..n] == q.main && main[n + 1..] == [];
    assert MayRelease(s1, n + 1) && Decision(s1, n + 1) == Pick(n);
    s2 := Release(s1, n + 1);
    assert s1.lock.q.Order() == q.Order() + [w];
    assert s2.lock.q.Order() == q.Order();
    StepIsBounded(s, s1);
    StepIsBounded(s1, s2);
    StepIsSound(SHORT_BATCH_THRESHOLD, 1, s.lock, s1.lock);
    StepIsSound(SHORT_BATCH_THRESHOLD, 1, s1.lock, s2.lock);
  }

  /** At the limit the release does not look, and serves the oldest. */
  lemma {:induction false} OldestServedAtLimit(s: State<nat>, newcomer: nat) returns (s': State<nat>)
    requires Patient(s, newcomer) && s.lock.batch == SHORT_BATCH_THRESHOLD && s.lock.q.Order() != []
    ensures Step(s, s') && IsHandoff(s.lock, s'.lock)
    ensures Patient(s', newcomer) && s'.lock.batch == 1
    ensures s'.lock.owner == s.lock.q.Order()[0] && s'.lock.q.Order() == s.lock.q.Order()[1..]
  {
    var n := |s.lock.q.main|;
    assert MayRelease(s, n) && Decision(s, n) == Oldest;
    s' := Release(s, n);
    assert s'.lock.q.Order() == s.lock.q.Order()[1..];
    StepIsBounded(s, s');
    StepIsSound(SHORT_BATCH_THRESHOLD, 1, s.lock, s'.lock);
    assert ([s.lock.owner] + s.lock.q.Order())[0] == s.lock.owner;
    assert ([s.lock.owner] + s.lock.q.Order())[1] == s.lock.q.Order()[0];
  }

  lemma PathFrom<T(!new)>(s: State<T>, path: seq<State<T>>)
    requires IsPath(path) && Step(s, path[0])
    ensures IsPath([s] + path) && Locks([s] + path) == [s.lock] + Locks(path)
  {
    var all := [s] + path;
    forall i: nat | i < |all| - 1 ensures StepAt(all, i) {
      if i > 0 {
        assert StepAt(path, i - 1);
      }
    }
  }

  /** From any such state, short newcomers keep the last waiter out for the whole bound. */
  lemma {:induction false} NewcomersExhaust(s: State<nat>, newcomer: nat) returns (path: seq<State<nat>>)
    requires Patient(s, newcomer) && s.lock.q.Order() != []
    ensures IsPath(path) && path[0] == s && Exhausts(SHORT_BATCH_THRESHOLD, 1, s.lock, Locks(path))
    decreases |s.lock.q.Order()|, SHORT_BATCH_THRESHOLD - s.lock.batch
  {
    if s.lock.batch < SHORT_BATCH_THRESHOLD {
      var s1, s2 := ShortNewcomerPasses(s, newcomer);
      var rest := NewcomersExhaust(s2, newcomer + 1);
      StepIsBounded(s, s1);
      StepIsBounded(s1, s2);
      PathFrom(s1, rest);
      PathFrom(s, [s1] + rest);
      path := [s] + ([s1] + rest);
      PassedOnce(SHORT_BATCH_THRESHOLD, 1, s.lock, s1.lock, s2.lock, Locks(rest));
    } else {
      var s' := OldestServedAtLimit(s, newcomer);
      StepIsBounded(s, s');
      if |s.lock.q.Order()| == 1 {
        PathFrom(s, [s']);
        path := [s] + [s'];
        assert Locks([s']) == [s'.lock];
        LastServed(SHORT_BATCH_THRESHOLD, 1, s.lock, s'.lock);
      } else {
        var rest := NewcomersExhaust(s', newcomer);
        PathFrom(s, rest);
        path := [s] + rest;
        OneServed(SHORT_BATCH_THRESHOLD, 1, s.lock, s'.lock, Locks(rest));
      }
    }
  }

  lemma RunGoesOn<T(!new)>(run: seq<State<T>>, s: State<T>)
    requires IsRun(run) && Step(run[|run| - 1], s)
    ensures IsRun(run + [s])
  {
    var run' := run + [s];
    forall i: nat | i < |run'| - 1 ensures StepAt(run', i) {
      if i < |run| - 1 {
        assert StepAt(run, i);
      }
    }
  }

  /** A run that brings k + 1 long waiters into the queue. */
  lemma {:induction false} LongWaitersCome(k: nat) returns (run: seq<State<nat>>)
    ensures IsRun(run) && Patient(run[|run| - 1], k + 2)
    ensures run[|run| - 1].lock.batch == 0 && |run[|run| - 1].lock.q.Order()| == k + 1
  {
    if k == 0 {
      var w0, w1 := Waiter(0, DEFAULT_SHORT_THRESHOLD), Waiter(1, DEFAULT_SHORT_THRESHOLD);
      var s0: State<nat> := Init();
      var s1 := Arrive(s0, w0);
      assert IsNew(s0, w0) && IsNew(s1, w1);
      RunGoesOn([s0], s1);
      RunGoesOn([s0] + [s1], Arrive(s1, w1));
      run := [s0] + [s1] + [Arrive(s1, w1)];
    } else {
      run := LongWaitersCome(k - 1);
      var s := run[|run| - 1];
      var w: Waiter<nat> := Waiter(k + 1, s.threshold);
      assert IsNew(s, w);
      assert Arrive(s, w).lock.q.Order() == s.lock.q.Order() + [w];
      StepIsBounded(s, Arrive(s, w));
      StepIsSound(SHORT_BATCH_THRESHOLD, 1, s.lock, Arrive(s, w).lock);
      RunGoesOn(run, Arrive(s, w));
      run := run + [Arrive(s, w)];
    }
  }

  /** And one that then takes the batch to b. */
  lemma {:induction false} BatchComes(k: nat, b: nat) returns (run: seq<State<nat>>)
    requires b <= SHORT_BATCH_THRESHOLD
    ensures IsRun(run) && Patient(run[|run| - 1], k + 2 + b)
    ensures run[|run| - 1].lock.batch == b && |run[|run| - 1].lock.q.Order()| == k + 1
    decreases b
  {
    if b == 0 {
      run := LongWaitersCome(k);
    } else {
      run := BatchComes(k, b - 1);
      var s1, s2 := ShortNewcomerPasses(run[|run| - 1], k + 1 + b);
      RunGoesOn(run, s1);
      RunGoesOn(run + [s1], s2);
      run := run + [s1] + [s2];
    }
  }

  lemma RunThenPath<T(!new)>(run: seq<State<T>>, path: seq<State<T>>)
    requires IsRun(run) && IsPath(path) && run[|run| - 1] == path[0]
    ensures var all := run + path[1..];
      IsRun(all) && all[|run| - 1..] == path && Locks(all)[|run| - 1..] == Locks(path)
  {
    var all := run + path[1..];
    forall i: nat | i < |all| - 1 ensures StepAt(all, i) {
      if i < |run| - 1 {
        assert StepAt(run, i);
      } else {
        assert StepAt(path, i - (|run| - 1));
      }
    }
  }

  /** No smaller bound holds for uta.c: for every k and every batch b there is a run in which a
      waiter with k waiters before it stays queued for all of k * 1000 + 1001 - b handoffs, and is
      served by the last of them. */
  lemma {:induction false} BoundIsReached(k: nat, b: nat)
    returns (run: seq<State<nat>>, lo: nat, w: Waiter<nat>)
    requires b <= SHORT_BATCH_THRESHOLD
    ensures IsRun(run) && lo < |run| && Waits(run[lo].lock, w, k) && run[lo].lock.batch == b
    ensures ServedLast(Locks(run)[lo..], w)
    ensures HandoffsBetween(Locks(run), lo, |run| - 1) == Bound(k, b)
  {
    var prefix := BatchComes(k, b);
    lo := |prefix| - 1;
    var path := NewcomersExhaust(prefix[lo], k + 2 + b);
    RunThenPath(prefix, path);
    run := prefix + path[1..];
    w := prefix[lo].lock.q.Order()[k];
    HandoffsInSlice(Locks(run), lo, |run| - 1);
    assert Locks(run)[lo..|run| - 1 + 1] == Locks(run)[lo..];
    BudgetHere(k, b);
  }

  // ----- The adaptive threshold --------------------------------------------------------

  ghost function Misses<T>(run: seq<State<T>>, evs: seq<Event<T>>): nat
    requires |run| == |evs| + 1
  {
    if evs == [] then 0
    else
      var n := |evs| - 1;
      Misses(run[..n + 1], evs[..n]) + (if IsMiss(run[n], evs[n]) then 1 else 0)
  }

  ghost function Drops<T>(run: seq<State<T>>, evs: seq<Event<T>>): nat
    requires |run| == |evs| + 1
  {
    if evs == [] then 0
    else
      var n := |evs| - 1;
      Drops(run[..n + 1], evs[..n]) + (if IsHundredthPick(run[n], evs[n]) then 1 else 0)
  }

  function BatchOf<T>(s: State<T>): nat {
    if s.lock.Held? then s.lock.batch else 0
  }

  lemma StepLedger<T(!new)>(s: State<T>, s': State<T>)
    requires Inv(s) && Step(s, s')
    ensures s'.threshold in {s.threshold - 1, s.threshold, s.threshold + 1}
    ensures s'.threshold != s.threshold ==> IsHandoff(s.lock, s'.lock)
    ensures s'.threshold < s.threshold ==> BatchOf(s) % 100 == 99 && BatchOf(s') == BatchOf(s) + 1
    ensures BatchOf(s') == BatchOf(s) || BatchOf(s') == 0
         || (IsHandoff(s.lock, s'.lock) && (BatchOf(s') == BatchOf(s) + 1 || BatchOf(s') == 1))
    ensures BatchOf(s') == BatchOf(s) + 1 && BatchOf(s) % 100 == 99 ==>
      s'.threshold < s.threshold || !IsHandoff(s.lock, s'.lock)
  {
    if s' == s {
    } else if visible: nat :| MayRelease(s, visible) && s' == Release(s, visible) {
      if s.lock.q.Order() != [] {
        HandoffRemovesOne(s.lock.q, Decision(s, visible));
        DistinctWithout(s.lock.owner, s.lock.q.Order(), Rank(s.lock.q, Decision(s, visible)));
      }
    }
  }

  lemma NextMod(b: nat)
    ensures (b + 1) % 100 == if b % 100 == 99 then 0 else b % 100 + 1
  {
  }

  /** What one step adds to the ledger of drops, batch and handoffs. */
  lemma StepPaysForDrops<T(!new)>(s: State<T>, s': State<T>)
    requires Inv(s) && Step(s, s')
    ensures (if s'.threshold < s.threshold then 100 else 0) + BatchOf(s') % 100
            <= BatchOf(s) % 100 + (if IsHandoff(s.lock, s'.lock) then 1 else 0)
  {
    StepLedger(s, s');
    NextMod(BatchOf(s));
    assert 0 % 100 == 0 && 1 % 100 == 1;
  }

  lemma RunInit<T(!new)>(run: seq<State<T>>, evs: seq<Event<T>>)
    requires IsRunOf(run, evs) && evs != []
    ensures var n := |evs| - 1;
      IsRunOf(run[..n + 1], evs[..n]) && Inv(run[n]) && Does(run[n], evs[n], run[n + 1])
  {
    var n: nat := |evs| - 1;
    var run', evs' := run[..n + 1], evs[..n];
    forall i: nat | i < n ensures DoesAt(run', evs', i) {
      assert DoesAt(run, evs, i);
    }
    RunOfIsRun(run, evs);
    RunKeepsInv(run, n);
    assert DoesAt(run, evs, n);
  }

  /** The threshold is its default plus the misses minus the hundredth picks, and each of those
      costs a hundred handoffs. */
  lemma {:induction false} ThresholdLedger<T(!new)>(run: seq<State<T>>, evs: seq<Event<T>>)
    requires IsRunOf(run, evs)
    ensures run[|evs|].threshold == 10000 + Misses(run, evs) - Drops(run, evs)
    ensures 100 * Drops(run, evs) + BatchOf(run[|evs|]) % 100 <= Handoffs(Locks(run))
    ensures Misses(run, evs) + Drops(run, evs) <= Handoffs(Locks(run))
  {
    if evs != [] {
      var n: nat := |evs| - 1;
      RunInit(run, evs);
      ThresholdLedger(run[..n + 1], evs[..n]);
      HandoffsFromTheEnd(Locks(run));
      assert Locks(run)[..n + 1] == Locks(run[..n + 1]);
      DoesStep(run[n], evs[n], run[n + 1]);
      EventMovesThreshold(run[n], evs[n], run[n + 1]);
      StepPaysForDrops(run[n], run[n + 1]);
      StepLedger(run[n], run[n + 1]);
    }
  }

  /** uta.c keeps the threshold in 64 bits but compares with a 32-bit copy of it.  The copy is
      exact until a run has made 2^31 - 10001 handoffs. */
  lemma ThresholdFitsInt32<T(!new)>(run: seq<State<T>>, evs: seq<Event<T>>)
    requires IsRunOf(run, evs) && Handoffs(Locks(run)) <= 0x8000_0000 - 10001
    ensures -0x8000_0000 <= run[|evs|].threshold < 0x8000_0000
  {
    ThresholdLedger(run, evs);
  }
}
