/**
 The time-window lock of utafts.c, one release at a time.  A thread may be favoured while its
 window is positive; a scan refills the windows it finds empty and moves those waiters to the
 secondary queue; a release charges the holder for the time it held the lock.
 */
module Fts {
  import opened TwoQueue

  const DEFAULT_REFILL_WINDOW: int := 100000

  /** `window` covers every thread, queued or not. */
  datatype State<T> = State(lock: Lock<T>, window: map<T, int>)

  function WindowOf<T(==)>(s: State<T>, t: T): int {
    if t in s.window then s.window[t] else 0
  }

  /** The scan: the first waiter with time left, or the length when there is none. */
  function FirstOpen<T(==)>(s: State<T>, ws: seq<T>): (j: nat)
    ensures j <= |ws|
    ensures forall i :: 0 <= i < j ==> WindowOf(s, ws[i]) <= 0
    ensures j < |ws| ==> WindowOf(s, ws[j]) > 0
  {
    if ws == [] || WindowOf(s, ws[0]) > 0 then 0 else 1 + FirstOpen(s, ws[1..])
  }

  /** The windows after a scan that passed `passed` and a section of length `duration`. */
  function Charge<T(==)>(s: State<T>, holder: T, passed: seq<T>, duration: int): map<T, int> {
    map t | t in s.window ::
      (if t in passed then DEFAULT_REFILL_WINDOW else s.window[t])
      - (if t == holder then duration else 0)
  }

  datatype Event<T> = Arrive(t: T) | Release(visible: nat, duration: int)

  ghost predicate Enabled<T(!new)>(s: State<T>, e: Event<T>) {
    match e
    case Arrive(t) => t in s.window && (s.lock.Held? ==> t !in [s.lock.owner] + s.lock.q.Order())
    case Release(visible, duration) =>
      && s.lock.Held? && duration >= 1
      && visible <= |s.lock.q.main| && (visible == 0 ==> s.lock.q.main == [])
  }

  function Scanned<T(==)>(s: State<T>, visible: nat): Choice
    requires s.lock.Held? && visible <= |s.lock.q.main|
  {
    var j := FirstOpen(s, s.lock.q.main[..visible]);
    if j < visible then Pick(j) else Oldest
  }

  /** Who the scan passed: the waiters before the pick, or all it saw. */
  function Passed<T(==)>(s: State<T>, visible: nat): seq<T>
    requires s.lock.Held? && visible <= |s.lock.q.main|
  {
    s.lock.q.main[..FirstOpen(s, s.lock.q.main[..visible])]
  }

  function Next<T(==)>(s: State<T>, e: Event<T>): State<T>
    requires e.Release? ==> s.lock.Held? && e.visible <= |s.lock.q.main|
                            && (e.visible == 0 ==> s.lock.q.main == [])
  {
    match e
    case Arrive(t) =>
      (match s.lock
       case Free => s.(lock := Held(t, Queue([], []), 0))
       case Held(o, q, b) => s.(lock := Held(o, q.(main := q.main + [t]), b)))
    case Release(visible, duration) =>
      var q, c := s.lock.q, Scanned(s, visible);
      State(if q.Order() == [] then Free else Held(Granted(q, c), After(q, c), 1),
            Charge(s, s.lock.owner, Passed(s, visible), duration))
  }

  ghost predicate StepAt<T(!new)>(run: seq<State<T>>, evs: seq<Event<T>>, i: nat)
    requires i < |evs| && |run| == |evs| + 1
  {
    Enabled(run[i], evs[i]) && run[i + 1] == Next(run[i], evs[i])
  }

  ghost predicate IsRun<T(!new)>(run: seq<State<T>>, evs: seq<Event<T>>) {
    && |run| == |evs| + 1 && Inv(run[0])
    && forall i: nat :: i < |evs| ==> StepAt(run, evs, i)
  }

  // ----- The invariant -----------------------------------------------------------------

  /** Waiters are distinct, everyone has a window, and every node of the secondary queue holds
      exactly a full one. */
  ghost predicate Inv<T(!new)>(s: State<T>) {
    s.lock.Held? ==>
      && Distinct([s.lock.owner] + s.lock.q.Order())
      && s.lock.owner in s.window
      && (forall i :: 0 <= i < |s.lock.q.Order()| ==> s.lock.q.Order()[i] in s.window)
      && (forall i :: 0 <= i < |s.lock.q.sec| ==>
            WindowOf(s, s.lock.q.sec[i]) == DEFAULT_REFILL_WINDOW)
  }

  lemma InvMembers<T(!new)>(s: State<T>)
    requires Inv(s) && s.lock.Held?
    ensures forall t :: t in s.lock.q.sec || t in s.lock.q.main ==>
      t in s.window && t != s.lock.owner && t in s.lock.q.Order()
    ensures forall t :: t in s.lock.q.sec ==> t !in s.lock.q.main
    ensures forall t :: t in s.lock.q.sec ==> WindowOf(s, t) == DEFAULT_REFILL_WINDOW
  {
    var l := [s.lock.owner] + s.lock.q.Order();
    forall t | t in s.lock.q.sec || t in s.lock.q.main
      ensures t in s.window && t != s.lock.owner && t in s.lock.q.Order()
    {
      assert t in s.lock.q.Order();
      var i :| 0 <= i < |s.lock.q.Order()| && s.lock.q.Order()[i] == t;
      assert l[i + 1] == t && l[0] == s.lock.owner;
    }
    forall t | t in s.lock.q.sec ensures t !in s.lock.q.main {
      var i :| 0 <= i < |s.lock.q.sec| && s.lock.q.sec[i] == t;
      assert l[i + 1] == t;
      assert forall j :: 0 <= j < |s.lock.q.main| ==> l[1 + |s.lock.q.sec| + j] == s.lock.q.main[j];
    }
  }

  /** A release, case by case, on windows and queues. */
  lemma WindowsAfter<T(!new)>(s: State<T>, e: Event<T>, t: T)
    requires Inv(s) && Enabled(s, e) && e.Release? && t in s.window
    ensures WindowOf(Next(s, e), t) ==
      (if t in Passed(s, e.visible) then DEFAULT_REFILL_WINDOW
       else if t == s.lock.owner then WindowOf(s, t) - e.duration
       else WindowOf(s, t))
  {
    InvMembers(s);
  }

  /** main[j] is seen, has time left, and nobody before it has. */
  ghost predicate IsFirstOpen<T>(s: State<T>, visible: nat, j: nat)
    requires s.lock.Held? && visible <= |s.lock.q.main|
  {
    && j < visible && WindowOf(s, s.lock.q.main[j]) > 0
    && forall i :: 0 <= i < j ==> WindowOf(s, s.lock.q.main[i]) <= 0
  }

  ghost predicate SeesOpen<T>(s: State<T>, visible: nat)
    requires s.lock.Held? && visible <= |s.lock.q.main|
  {
    exists i :: 0 <= i < visible && WindowOf(s, s.lock.q.main[i]) > 0
  }

  /** The windows after a release: full for those refilled, less by the duration for the holder. */
  ghost predicate Charged<T(!new)>(s: State<T>, s': State<T>, refilled: seq<T>, duration: int)
    requires s.lock.Held?
  {
    forall t :: t in s.window ==>
      t in s'.window && s'.window[t]
        == if t in refilled then 100000 else if t == s.lock.owner then s.window[t] - duration else s.window[t]
  }

  /** A release serves the first waiter it sees that has time left: those before it get a full window
      and join the secondary queue. If it sees none, everybody it saw gets a full window, and it serves
      the oldest of both queues. Nobody else's window changes, but for the holder's, which is charged. */
  lemma ReleaseServes<T(!new)>(s: State<T>, e: Event<T>)
    requires Inv(s) && Enabled(s, e) && e.Release? && s.lock.q.sec + s.lock.q.main != []
    ensures var q := s.lock.q;
      SeesOpen(s, e.visible) ==>
        exists j: nat :: IsFirstOpen(s, e.visible, j) && ServesAt(s, Next(s, e), j, e.duration)
    ensures var line, s' := s.lock.q.sec + s.lock.q.main, Next(s, e);
      !SeesOpen(s, e.visible) ==>
        && s'.lock == Held(line[0], Queue([], line[1..]), 1)
        && Charged(s, s', s.lock.q.main[..e.visible], e.duration)
  {
    var seen := s.lock.q.main[..e.visible];
    assert forall i :: 0 <= i < e.visible ==> seen[i] == s.lock.q.main[i];
    var r := FirstOpen(s, seen);
    assert seen[..r] == s.lock.q.main[..r];
    ChargeIs(s, e);
    if SeesOpen(s, e.visible) {
      assert IsFirstOpen(s, e.visible, r);
      assert ServesAt(s, Next(s, e), r, e.duration);
    }
  }

  ghost predicate ServesAt<T(!new)>(s: State<T>, s': State<T>, j: nat, duration: int)
    requires s.lock.Held? && j < |s.lock.q.main|
  {
    var q := s.lock.q;
    && s'.lock == Held(q.main[j], Queue(q.sec + q.main[..j], q.main[j + 1..]), 1)
    && Charged(s, s', q.main[..j], duration)
  }

  lemma ChargeIs<T(!new)>(s: State<T>, e: Event<T>)
    requires Inv(s) && Enabled(s, e) && e.Release?
    ensures Charged(s, Next(s, e), Passed(s, e.visible), e.duration)
  {
    InvMembers(s);
  }

  lemma ReleaseKeepsInv<T(!new)>(s: State<T>, e: Event<T>)
    requires Inv(s) && Enabled(s, e) && e.Release?
    ensures Inv(Next(s, e))
  {
    var s' := Next(s, e);
    if s.lock.q.Order() != [] {
      var q, c := s.lock.q, Scanned(s, e.visible);
      assert Allowed(q, c);
      HandoffRemovesOne(q, c);
      DistinctWithout(s.lock.owner, q.Order(), Rank(q, c));
      InvMembers(s);
      assert forall t :: t in s'.lock.q.Order() ==> t in q.Order();
      forall i | 0 <= i < |s'.lock.q.sec|
        ensures WindowOf(s', s'.lock.q.sec[i]) == DEFAULT_REFILL_WINDOW
      {
        var t := s'.lock.q.sec[i];
        assert t in q.sec || t in Passed(s, e.visible);
        WindowsAfter(s, e, t);
      }
    }
  }

  /** The last to release frees the lock, and is charged. */
  lemma ReleaseFrees<T(!new)>(s: State<T>, e: Event<T>)
    requires Inv(s) && Enabled(s, e) && e.Release? && s.lock.q.sec + s.lock.q.main == []
    ensures Next(s, e).lock == Free && Charged(s, Next(s, e), [], e.duration)
  {
    ChargeIs(s, e);
  }

  /** A newcomer stands last, or takes a free lock; nobody's window changes. */
  lemma NewcomerIsLast<T(!new)>(s: State<T>, t: T)
    ensures Next(s, Arrive(t)).window == s.window && Next(s, Arrive(t)).lock.Held?
    ensures s.lock.Free? ==> Next(s, Arrive(t)).lock == Held(t, Queue([], []), 0)
    ensures s.lock.Held? ==>
      var l := Next(s, Arrive(t)).lock;
      && l.owner == s.lock.owner && l.batch == s.lock.batch && l.q.sec == s.lock.q.sec
      && l.q.Order() == s.lock.q.Order() + [t]
  {
    if s.lock.Held? {
      assert s.lock.q.sec + (s.lock.q.main + [t]) == s.lock.q.sec + s.lock.q.main + [t];
    }
  }

  lemma NextKeepsInv<T(!new)>(s: State<T>, e: Event<T>)
    requires Inv(s) && Enabled(s, e)
    ensures Inv(Next(s, e))
  {
    if e.Release? {
      ReleaseKeepsInv(s, e);
    } else if s.lock.Held? {
      var l := [s.lock.owner] + s.lock.q.Order();
      assert Next(s, e).lock.q.Order() == s.lock.q.Order() + [e.t];
      assert [Next(s, e).lock.owner] + Next(s, e).lock.q.Order() == l + [e.t];
    }
  }

  // ----- Credits -----------------------------------------------------------------------

  function Positive(n: int): nat { if n > 0 then n else 0 }

  /** The credit a thread can still use to overtake: its positive window while outside the
      secondary queue, less the unit the current holder has already spent. */
  ghost function Credit<T>(s: State<T>, t: T): (c: nat)
  {
    if s.lock.Held? && t in s.lock.q.sec then 0
    else if s.lock.Held? && t == s.lock.owner && WindowOf(s, t) > 0 then WindowOf(s, t) - 1
    else Positive(WindowOf(s, t))
  }

  ghost function Credits<T>(s: State<T>, all: seq<T>): nat {
    if all == [] then 0 else Credit(s, all[0]) + Credits(s, all[1..])
  }

  lemma {:induction false} CreditsShrink<T>(s: State<T>, s': State<T>, all: seq<T>)
    requires forall t :: t in all ==> Credit(s', t) <= Credit(s, t)
    ensures Credits(s', all) <= Credits(s, all)
    ensures (exists t :: t in all && Credit(s', t) < Credit(s, t)) ==> Credits(s', all) < Credits(s, all)
  {
    if all != [] {
      CreditsShrink(s, s', all[1..]);
      assert forall t :: t in all ==> t == all[0] || t in all[1..];
    }
  }

  /** The sum of the positive windows outside the secondary queue bounds the credits. */
  ghost function PositiveWindows<T>(s: State<T>, all: seq<T>): nat {
    if all == [] then 0
    else (if s.lock.Held? && all[0] in s.lock.q.sec then 0 else Positive(WindowOf(s, all[0])))
         + PositiveWindows(s, all[1..])
  }

  lemma {:induction false} CreditsAreBounded<T>(s: State<T>, all: seq<T>)
    ensures Credits(s, all) <= PositiveWindows(s, all)
  {
    if all != [] { CreditsAreBounded(s, all[1..]); }
  }

  /** A pick spends credit: the granted thread commits one unit, and nobody gains any. */
  lemma PickSpendsCredit<T(!new)>(s: State<T>, e: Event<T>, all: seq<T>)
    requires Inv(s) && Enabled(s, e) && e.Release? && Scanned(s, e.visible).Pick?
    requires forall t :: t in s.window <==> t in all
    ensures Credits(Next(s, e), all) < Credits(s, all)
  {
    var s', q, j := Next(s, e), s.lock.q, Scanned(s, e.visible).j;
    InvMembers(s);
    var g := q.main[j];
    assert g == q.main[..e.visible][j] && g in q.main;
    assert q.main != [] && q.Order() != [];
    HandoffRemovesOne(q, Pick(j));
    assert s'.lock.q.sec == q.sec + Passed(s, e.visible);
    assert g !in Passed(s, e.visible) by {
      assert forall i :: 0 <= i < |q.main| ==> ([s.lock.owner] + q.Order())[1 + |q.sec| + i] == q.main[i];
    }
    forall t | t in all ensures Credit(s', t) <= Credit(s, t) {
      WindowsAfter(s, e, t);
    }
    WindowsAfter(s, e, g);
    assert Credit(s', g) < Credit(s, g);
    CreditsShrink(s, s', all);
  }

  // ----- Rounds ------------------------------------------------------------------------

  /** The secondary queue is empty and the first k + 1 waiters all have time left. */
  ghost predicate Refreshed<T>(s: State<T>, k: nat) {
    && s.lock.Held? && s.lock.q.sec == [] && k < |s.lock.q.main|
    && forall i :: 0 <= i <= k ==> WindowOf(s, s.lock.q.main[i]) > 0
  }

  /** The release has seen waiter w, if w is in the main queue. */
  ghost predicate Covers<T(!new)>(s: State<T>, e: Event<T>, w: T) {
    e.Release? && s.lock.Held? && w in s.lock.q.main ==>
      e.visible <= |s.lock.q.main| && w in s.lock.q.main[..e.visible]
  }

  /** In a refreshed state the next release grants the head, and the round goes on. */
  lemma RoundGoesOn<T(!new)>(s: State<T>, e: Event<T>, k: nat)
    requires Inv(s) && Enabled(s, e) && Refreshed(s, k)
    ensures e.Release? ==>
      && Next(s, e).lock.Held? && Next(s, e).lock.owner == s.lock.q.main[0]
      && Next(s, e).lock.q == Queue([], s.lock.q.main[1..])
      && (k > 0 ==> Refreshed(Next(s, e), k - 1))
    ensures e.Arrive? ==> Refreshed(Next(s, e), k)
  {
    if e.Release? {
      var main := s.lock.q.main;
      assert main[..e.visible][0] == main[0];
      assert FirstOpen(s, main[..e.visible]) == 0;
      InvMembers(s);
      if k > 0 {
        forall i | 0 <= i <= k - 1 ensures WindowOf(Next(s, e), main[1..][i]) > 0 {
          WindowsAfter(s, e, main[i + 1]);
        }
      }
    }
  }

  /** After a miss or a drain every waiter that was seen has a full window. */
  lemma MissRefreshes<T(!new)>(s: State<T>, e: Event<T>)
    requires Inv(s) && Enabled(s, e) && e.Release? && Scanned(s, e.visible).Oldest?
    requires s.lock.q.Order() != []
    ensures Next(s, e).lock.Held? && Next(s, e).lock.owner == s.lock.q.Order()[0]
    ensures Next(s, e).lock.q == Queue([], s.lock.q.Order()[1..])
    ensures forall t :: t in s.lock.q.sec || t in s.lock.q.main[..e.visible] ==>
      WindowOf(Next(s, e), t) == DEFAULT_REFILL_WINDOW
  {
    InvMembers(s);
    assert Passed(s, e.visible) == s.lock.q.main[..e.visible];
    forall t | t in s.lock.q.sec || t in s.lock.q.main[..e.visible]
      ensures WindowOf(Next(s, e), t) == DEFAULT_REFILL_WINDOW
    {
      WindowsAfter(s, e, t);
    }
  }

  // ----- Starvation --------------------------------------------------------------------

  ghost function Bound<T>(s: State<T>, all: seq<T>, k: nat): nat {
    if Refreshed(s, k) then k + 1 else Credits(s, all) + 1 + k
  }

  lemma MissReachesRound<T(!new)>(s: State<T>, e: Event<T>, w: T, k: nat)
    requires Inv(s) && Enabled(s, e) && e.Release? && Scanned(s, e.visible).Oldest?
    requires Waits(s.lock, w, k) && k > 0 && Covers(s, e, w)
    ensures Waits(Next(s, e).lock, w, k - 1) && Refreshed(Next(s, e), k - 1)
  {
    MissRefreshes(s, e);
    SeenUpTo(s, e, w, k);
    var q, s' := s.lock.q, Next(s, e);
    forall i | 0 <= i <= k - 1 ensures WindowOf(s', s'.lock.q.main[i]) > 0 {
      var t := q.Order()[i + 1];
      if i + 1 >= |q.sec| { assert t == q.main[..e.visible][i + 1 - |q.sec|]; }
    }
  }

  /** A release that covers a waiter has seen every waiter before it in the main queue. */
  lemma SeenUpTo<T(!new)>(s: State<T>, e: Event<T>, w: T, k: nat)
    requires Inv(s) && Enabled(s, e) && e.Release? && Waits(s.lock, w, k) && Covers(s, e, w)
    ensures k >= |s.lock.q.sec| ==> k - |s.lock.q.sec| < e.visible
  {
    var q, l := s.lock.q, [s.lock.owner] + s.lock.q.Order();
    var n := |q.sec|;
    if k >= n {
      assert w == q.main[k - n];
      var j :| 0 <= j < e.visible && q.main[..e.visible][j] == w;
      assert l[1 + n + j] == w && l[1 + k] == w;
    }
  }

  lemma {:induction false} PickLowersBound<T(!new)>(s: State<T>, e: Event<T>, all: seq<T>, w: T, k: nat)
    returns (k': nat)
    requires Inv(s) && Enabled(s, e) && e.Release? && Scanned(s, e.visible).Pick?
    requires forall t :: t in s.window <==> t in all
    requires Waits(s.lock, w, k) && !Refreshed(s, k)
    ensures Next(s, e).lock.Held?
    ensures Next(s, e).lock.owner == w || (
        Waits(Next(s, e).lock, w, k') && Bound(Next(s, e), all, k') < Bound(s, all, k))
  {
    var c := Scanned(s, e.visible);
    PickSpendsCredit(s, e, all);
    HandoffRemovesOne(s.lock.q, c);
    k' := if Rank(s.lock.q, c) < k then k - 1 else k;
    if k != Rank(s.lock.q, c) {
      PositionAfter(s.lock.q, c, k);
    }
  }

  /** One event never moves a waiter back; a handoff that does not serve it lowers its bound. */
  lemma {:induction false} StepLowersBound<T(!new)>(s: State<T>, e: Event<T>, all: seq<T>, w: T, k: nat)
    returns (k': nat)
    requires Inv(s) && Enabled(s, e) && Waits(s.lock, w, k) && Covers(s, e, w)
    requires forall t :: t in s.window <==> t in all
    ensures var s' := Next(s, e);
            && s'.lock.Held? && IsHandoff(s.lock, s'.lock) == e.Release?
            && ((s'.lock.owner == w && e.Release?) || (
                  Waits(s'.lock, w, k')
                  && Bound(s', all, k') + (if e.Release? then 1 else 0) <= Bound(s, all, k)))
  {
    k' := k;
    var s' := Next(s, e);
    if e.Arrive? {
      assert s'.lock.q.Order() == s.lock.q.Order() + [e.t];
      forall t | t in all ensures Credit(s', t) <= Credit(s, t) {}
      CreditsShrink(s, s', all);
      if Refreshed(s, k) { RoundGoesOn(s, e, k); }
    } else {
      var c := Scanned(s, e.visible);
      assert s.lock.q.Order() != [];
      HandoffRemovesOne(s.lock.q, c);
      DistinctWithout(s.lock.owner, s.lock.q.Order(), Rank(s.lock.q, c));
      if Refreshed(s, k) {
        RoundGoesOn(s, e, k);
        assert s.lock.q.Order() == s.lock.q.main;
        k' := if k > 0 then k - 1 else k;
      } else if c.Pick? {
        k' := PickLowersBound(s, e, all, w, k);
      } else if k > 0 {
        MissReachesRound(s, e, w, k);
        k' := k - 1;
      }
    }
  }

  function Locks<T>(run: seq<State<T>>): (ls: seq<Lock<T>>)
    ensures |ls| == |run| && forall i :: 0 <= i < |run| ==> ls[i] == run[i].lock
  {
    seq(|run|, i requires 0 <= i < |run| => run[i].lock)
  }

  lemma RunTail<T(!new)>(run: seq<State<T>>, evs: seq<Event<T>>)
    requires IsRun(run, evs) && evs != []
    ensures IsRun(run[1..], evs[1..]) && Enabled(run[0], evs[0]) && run[1] == Next(run[0], evs[0])
  {
    assert StepAt(run, evs, 0);
    NextKeepsInv(run[0], evs[0]);
    forall i: nat | i < |evs| - 1 ensures StepAt(run[1..], evs[1..], i) {
      assert StepAt(run, evs, i + 1);
    }
  }

  /** Every thread has a window, and the releases see w whenever it is in the main queue. */
  ghost predicate Watched<T(!new)>(run: seq<State<T>>, evs: seq<Event<T>>, all: seq<T>, w: T)
    requires IsRun(run, evs)
  {
    && (forall t :: t in run[0].window <==> t in all)
    && forall i :: 0 <= i < |evs| ==> Covers(run[i], evs[i], w)
  }

  /** The credit bound: with every section costing at least one tick, a waiter with k waiters
      before it is served within S + 1 + k handoffs, S being the sum of the positive windows
      outside the secondary queue; within k + 1 once the round has been refreshed. */
  lemma {:induction false} NoStarvation<T(!new)>(run: seq<State<T>>, evs: seq<Event<T>>, all: seq<T>, w: T, k: nat)
    returns (served: nat)
    requires IsRun(run, evs) && Watched(run, evs, all, w) && Waits(run[0].lock, w, k)
    ensures var bound := Bound(run[0], all, k);
            && bound <= PositiveWindows(run[0], all) + 1 + k
            && (Refreshed(run[0], k) ==> bound == k + 1)
            && (ServedWithin(Locks(run), w, served, bound) || Handoffs(Locks(run)) < bound)
    decreases |evs|
  {
    CreditsAreBounded(run[0], all);
    served := 0;
    if evs != [] {
      RunTail(run, evs);
      assert Covers(run[0], evs[0], w);
      var k' := StepLowersBound(run[0], evs[0], all, w, k);
      var ls := Locks(run);
      assert Locks(run[1..]) == ls[1..];
      if run[1].lock.owner == w && evs[0].Release? {
        ServedAtOnce(ls, w);
        served := 1;
      } else {
        assert Watched(run[1..], evs[1..], all, w) by {
          forall i | 0 <= i < |evs| - 1 ensures Covers(run[1..][i], evs[1..][i], w) {
            assert Covers(run[i + 1], evs[i + 1], w);
          }
        }
        served := NoStarvation(run[1..], evs[1..], all, w, k');
        var bound' := Bound(run[1], all, k');
        if ServedWithin(ls[1..], w, served, bound') {
          ServedInTail(ls, w, served, bound');
          served := served + 1;
        }
      }
    }
  }

  lemma {:induction false} RunKeepsInv<T(!new)>(run: seq<State<T>>, evs: seq<Event<T>>, i: nat)
    requires IsRun(run, evs) && i < |run|
    ensures Inv(run[i])
  {
    if i > 0 {
      RunKeepsInv(run, evs, i - 1);
      assert StepAt(run, evs, i - 1);
      NextKeepsInv(run[i - 1], evs[i - 1]);
    }
  }

  lemma ReleaseIsHandoff<T(!new)>(s: State<T>, e: Event<T>)
    requires Inv(s) && Enabled(s, e) && s.lock.Held? && s.lock.q.Order() != []
    ensures IsHandoff(s.lock, Next(s, e).lock) == e.Release?
  {
    if e.Release? {
      HandoffRemovesOne(s.lock.q, Scanned(s, e.visible));
      DistinctWithout(s.lock.owner, s.lock.q.Order(), Rank(s.lock.q, Scanned(s, e.visible)));
    }
  }

  /** One step of a round that still has to serve round[h..], the next k - h + 1 refreshed. */
  lemma RoundStep<T(!new)>(s: State<T>, e: Event<T>, round: seq<T>, k: nat, h: nat)
    requires Inv(s) && Enabled(s, e) && h <= k < |round|
    requires Refreshed(s, k - h) && round[h..] <= s.lock.q.main
    ensures IsHandoff(s.lock, Next(s, e).lock) == e.Release?
    ensures e.Release? ==> Next(s, e).lock.Held? && Next(s, e).lock.owner == round[h]
    ensures var h' := if e.Release? then h + 1 else h;
            h' <= k ==> Refreshed(Next(s, e), k - h') && round[h'..] <= Next(s, e).lock.q.main
  {
    ReleaseIsHandoff(s, e);
    RoundGoesOn(s, e, k - h);
    assert round[h..][0] == round[h];
    assert round[h..][1..] == round[h + 1..];
  }

  /** The round, in order: from a state whose first k + 1 waiters are refreshed, the next k + 1
      releases grant exactly those, in arrival order, before any later arrival. */
  lemma {:induction false} RoundIsServedInOrder<T(!new)>(run: seq<State<T>>, evs: seq<Event<T>>, k: nat, i: nat)
    requires IsRun(run, evs) && Refreshed(run[0], k) && i < |run|
    requires HandoffsBetween(Locks(run), 0, i) <= k
    ensures var h := HandoffsBetween(Locks(run), 0, i);
            && Refreshed(run[i], k - h) && run[0].lock.q.main[h..] <= run[i].lock.q.main
            && (i < |evs| && evs[i].Release? ==>
                  run[i + 1].lock.Held? && run[i + 1].lock.owner == run[0].lock.q.main[h])
  {
    var round := run[0].lock.q.main;
    if i > 0 {
      RoundIsServedInOrder(run, evs, k, i - 1);
      assert StepAt(run, evs, i - 1);
      RunKeepsInv(run, evs, i - 1);
      RoundStep(run[i - 1], evs[i - 1], round, k, HandoffsBetween(Locks(run), 0, i - 1));
    }
    if i < |evs| {
      RunKeepsInv(run, evs, i);
      assert StepAt(run, evs, i);
      RoundStep(run[i], evs[i], round, k, HandoffsBetween(Locks(run), 0, i));
    }
  }
}
