/**
 The queue discipline shared by uta.c, utafts.c, uxpick.c and cspick.c.

 A released lock goes either to a favoured waiter of the main queue, in which case every
 waiter in front of it moves to the secondary queue, or to the oldest waiter, in which case
 the secondary queue is put back in front of the main one.  The fact everything else rests
 on is that `sec + main` stays the arrival order of the waiters: a handoff only removes one.
 */
module TwoQueue {

  datatype Option<+T> = None | Some(value: T)

  /** The secondary and the main queue, both oldest waiter first. */
  datatype Queue<T> = Queue(sec: seq<T>, main: seq<T>) {
    function Order(): seq<T> { sec + main }
  }

  /** `Pick(j)` grants main[j]; `Oldest` grants the first waiter of both queues. */
  datatype Choice = Pick(j: nat) | Oldest

  predicate Allowed<T>(q: Queue<T>, c: Choice) {
    match c
    case Pick(j) => j < |q.main|
    case Oldest => |q.Order()| > 0
  }

  function Granted<T>(q: Queue<T>, c: Choice): T
    requires Allowed(q, c)
  {
    match c
    case Pick(j) => q.main[j]
    case Oldest => q.Order()[0]
  }

  function After<T>(q: Queue<T>, c: Choice): Queue<T>
    requires Allowed(q, c)
  {
    match c
    case Pick(j) => Queue(q.sec + q.main[..j], q.main[j + 1..])
    case Oldest => Queue([], q.Order()[1..])
  }

  /** How many older waiters the granted one passes. */
  function Rank<T>(q: Queue<T>, c: Choice): nat {
    match c
    case Pick(j) => |q.sec| + j
    case Oldest => 0
  }

  function Without<T>(s: seq<T>, i: nat): seq<T>
    requires i < |s|
  {
    s[..i] + s[i + 1..]
  }

  ghost predicate Distinct<T>(s: seq<T>) {
    forall i, j :: 0 <= i < j < |s| ==> s[i] != s[j]
  }

  /** There are no more different threads than there are threads. */
  lemma {:induction false} Pigeonhole(q: seq<nat>, n: nat)
    requires Distinct(q) && forall i :: 0 <= i < |q| ==> q[i] < n
    ensures |q| <= n
  {
    if q != [] {
      assert q[0] < n;
      if k :| 0 <= k < |q| && q[k] == n - 1 {
        Pigeonhole(q[..k] + q[k + 1..], n - 1);
      } else {
        Pigeonhole(q, n - 1);
      }
    }
  }

  /** The central fact: a handoff removes the granted waiter and keeps everyone else in order. */
  lemma HandoffRemovesOne<T>(q: Queue<T>, c: Choice)
    requires Allowed(q, c)
    ensures Rank(q, c) < |q.Order()|
    ensures Granted(q, c) == q.Order()[Rank(q, c)]
    ensures After(q, c).Order() == Without(q.Order(), Rank(q, c))
  {
    match c
    case Oldest =>
    case Pick(j) =>
      assert q.main[..j] + [q.main[j]] + q.main[j + 1..] == q.main;
      assert q.Order()[..|q.sec| + j] == q.sec + q.main[..j];
      assert q.Order()[|q.sec| + j + 1..] == q.main[j + 1..];
  }

  /** Only a flush, or a pick past at least one waiter, changes who is in the secondary queue. */
  lemma PicksFromTheFrontKeepSec<T>(q: Queue<T>, c: Choice)
    requires Allowed(q, c)
    ensures After(q, c).sec == q.sec <==> (c == Pick(0) || (c == Oldest && q.sec == []))
    ensures c.Pick? ==> q.sec <= After(q, c).sec
  {
    if c.Pick? && c.j > 0 {
      assert |After(q, c).sec| == |q.sec| + c.j;
    }
  }

  /** A released position is the one the order lost; the others shift by at most one. */
  lemma PositionAfter<T>(q: Queue<T>, c: Choice, k: nat)
    requires Allowed(q, c) && k < |q.Order()| && k != Rank(q, c)
    ensures var k' := if Rank(q, c) < k then k - 1 else k;
            k' < |After(q, c).Order()| && After(q, c).Order()[k'] == q.Order()[k]
  {
    HandoffRemovesOne(q, c);
  }

  // ----- Bounded bypass ----------------------------------------------------------------

  /** A lock with a batch counter: how many favoured grants since the last flush. */
  datatype Lock<T> = Free | Held(owner: T, q: Queue<T>, batch: nat)

  ghost predicate Sound<T(!new)>(cap: nat, s: Lock<T>) {
    s.Held? ==> s.batch <= cap && Distinct([s.owner] + s.q.Order())
  }

  ghost predicate Arrives<T(!new)>(s: Lock<T>, s': Lock<T>, t: T) {
    match s
    case Free => s' == Held(t, Queue([], []), 0)
    case Held(o, q, b) => t !in [o] + q.Order() && s' == Held(o, Queue(q.sec, q.main + [t]), b)
  }

  /** A handoff under a batch limit `cap`: a pick needs a batch below it and raises the batch by
      one; granting the oldest either sets the batch to `restart` or leaves it alone. */
  ghost predicate HandsOff<T(!new)>(cap: nat, restart: nat, s: Lock<T>, s': Lock<T>, c: Choice) {
    && s.Held? && s'.Held? && Allowed(s.q, c)
    && s'.owner == Granted(s.q, c) && s'.q == After(s.q, c)
    && (c.Pick? ==> s.batch < cap && s'.batch == s.batch + 1)
    && (c.Oldest? ==> s'.batch == restart || s'.batch == s.batch)
  }

  ghost predicate Vacates<T(!new)>(s: Lock<T>, s': Lock<T>) {
    s.Held? && s.q.Order() == [] && s' == Free
  }

  ghost predicate Step<T(!new)>(cap: nat, restart: nat, s: Lock<T>, s': Lock<T>) {
    || s' == s
    || (exists t :: Arrives(s, s', t))
    || (exists c :: HandsOff(cap, restart, s, s', c))
    || Vacates(s, s')
  }

  ghost predicate StepAt<T(!new)>(cap: nat, restart: nat, run: seq<Lock<T>>, i: nat)
    requires i + 1 < |run|
  {
    Step(cap, restart, run[i], run[i + 1])
  }

  ghost predicate IsRun<T(!new)>(cap: nat, restart: nat, run: seq<Lock<T>>) {
    && |run| > 0
    && Sound(cap, run[0])
    && forall i: nat :: i < |run| - 1 ==> StepAt(cap, restart, run, i)
  }

  /** A handoff is a change of owner between two held states. */
  predicate IsHandoff<T(==)>(s: Lock<T>, s': Lock<T>) {
    s.Held? && s'.Held? && s.owner != s'.owner
  }

  function Handoffs<T(==)>(run: seq<Lock<T>>): nat {
    if |run| < 2 then 0
    else (if IsHandoff(run[0], run[1]) then 1 else 0) + Handoffs(run[1..])
  }

  lemma {:induction false} HandoffsFromTheEnd<T>(run: seq<Lock<T>>)
    requires |run| >= 2
    ensures Handoffs(run) == Handoffs(run[..|run| - 1])
            + (if IsHandoff(run[|run| - 2], run[|run| - 1]) then 1 else 0)
  {
    if |run| > 2 {
      HandoffsFromTheEnd(run[1..]);
      assert run[..|run| - 1][1..] == run[1..][..|run| - 2];
    }
  }

  /** Handoffs between two states of a run. */
  function HandoffsBetween<T(==)>(run: seq<Lock<T>>, lo: nat, hi: nat): nat
    requires lo <= hi < |run|
  {
    if lo == hi then 0
    else HandoffsBetween(run, lo, hi - 1) + (if IsHandoff(run[hi - 1], run[hi]) then 1 else 0)
  }

  lemma {:induction false} HandoffsInSlice<T>(run: seq<Lock<T>>, lo: nat, hi: nat)
    requires lo <= hi < |run|
    ensures Handoffs(run[lo..hi + 1]) == HandoffsBetween(run, lo, hi)
  {
    if lo < hi {
      HandoffsInSlice(run, lo, hi - 1);
      HandoffsFromTheEnd(run[lo..hi + 1]);
      assert run[lo..hi + 1][..hi - lo] == run[lo..hi - 1 + 1];
    }
  }

  /** Handoffs until a waiter with k older waiters is served, at the latest. */
  function Budget(cap: nat, restart: nat, k: nat, batch: nat): nat
    requires restart <= cap && batch <= cap
  {
    k * (cap + 1 - restart) + (cap + 1 - batch)
  }

  lemma DistinctWithout<T>(o: T, s: seq<T>, i: nat)
    requires i < |s| && Distinct([o] + s)
    ensures Distinct([s[i]] + Without(s, i)) && s[i] != o
  {
    var l, r := [o] + s, [s[i]] + Without(s, i);
    assert s[i] == l[i + 1] && l[0] == o;
    forall a, b | 0 <= a < b < |r| ensures r[a] != r[b] {
      assert r[b] == l[if b - 1 < i then b else b + 1];
      assert r[a] == if a == 0 then l[i + 1] else l[if a - 1 < i then a else a + 1];
    }
  }

  lemma StepIsSound<T(!new)>(cap: nat, restart: nat, s: Lock<T>, s': Lock<T>)
    requires restart <= cap && Sound(cap, s) && Step(cap, restart, s, s')
    ensures Sound(cap, s')
  {
    if c :| HandsOff(cap, restart, s, s', c) {
      HandoffRemovesOne(s.q, c);
      DistinctWithout(s.owner, s.q.Order(), Rank(s.q, c));
    } else if t :| Arrives(s, s', t) {
      if s.Held? {
        var l := [s.owner] + s.q.Order();
        assert [s'.owner] + s'.q.Order() == l + [t];
      }
    }
  }

  /** A waiter's place in the queue and the budget left to serve it. */
  ghost predicate Waits<T(!new)>(s: Lock<T>, w: T, k: nat) {
    s.Held? && k < |s.q.Order()| && s.q.Order()[k] == w
  }

  lemma BudgetOfTheNextPlace(cap: nat, restart: nat, k: nat, batch: nat, batch': nat)
    requires restart <= cap && batch <= cap && batch' <= cap
    requires k > 0 && (batch' == restart || batch' >= batch)
    ensures Budget(cap, restart, k - 1, batch') < Budget(cap, restart, k, batch)
  {
    var c := cap + 1 - restart;
    assert k * c == (k - 1) * c + c;
  }

  lemma {:induction false} HandoffSpendsBudget<T(!new)>(
    cap: nat, restart: nat, s: Lock<T>, s': Lock<T>, c: Choice, w: T, k: nat)
    returns (k': nat)
    requires restart <= cap && Sound(cap, s) && HandsOff(cap, restart, s, s', c) && Waits(s, w, k)
    ensures s'.batch <= cap && IsHandoff(s, s')
    ensures s'.owner == w || (
        && Waits(s', w, k') && k' <= k
        && Budget(cap, restart, k', s'.batch) < Budget(cap, restart, k, s.batch))
  {
    k' := k;
    HandoffRemovesOne(s.q, c);
    DistinctWithout(s.owner, s.q.Order(), Rank(s.q, c));
    if k != Rank(s.q, c) {
      PositionAfter(s.q, c, k);
      if Rank(s.q, c) < k {
        k' := k - 1;
        BudgetOfTheNextPlace(cap, restart, k, s.batch, s'.batch);
      }
    }
  }

  /** One step never moves a waiter back, and every handoff that does not serve it costs budget. */
  lemma {:induction false} StepSpendsBudget<T(!new)>(cap: nat, restart: nat, s: Lock<T>, s': Lock<T>, w: T, k: nat)
    returns (k': nat)
    requires restart <= cap && Sound(cap, s) && Step(cap, restart, s, s') && Waits(s, w, k)
    ensures s'.Held? && s'.batch <= cap
    ensures (IsHandoff(s, s') && s'.owner == w) || (
        && Waits(s', w, k') && k' <= k
        && Budget(cap, restart, k', s'.batch) + (if IsHandoff(s, s') then 1 else 0)
           <= Budget(cap, restart, k, s.batch))
  {
    k' := k;
    if s' == s {
    } else if c :| HandsOff(cap, restart, s, s', c) {
      k' := HandoffSpendsBudget(cap, restart, s, s', c, w, k);
    } else if t :| Arrives(s, s', t) {
      assert s'.q.Order() == s.q.Order() + [t];
    }
  }

  lemma RunTail<T(!new)>(cap: nat, restart: nat, run: seq<Lock<T>>)
    requires restart <= cap && IsRun(cap, restart, run) && |run| > 1
    ensures IsRun(cap, restart, run[1..])
  {
    var rest := run[1..];
    assert StepAt(cap, restart, run, 0);
    StepIsSound(cap, restart, run[0], run[1]);
    forall i: nat | i < |rest| - 1 ensures StepAt(cap, restart, rest, i) {
      assert StepAt(cap, restart, run, i + 1);
    }
  }

  /** State i of the run has w as owner, after at most n handoffs. */
  ghost predicate ServedWithin<T(!new)>(run: seq<Lock<T>>, w: T, i: nat, n: nat) {
    0 < i < |run| && run[i].Held? && run[i].owner == w && Handoffs(run[..i + 1]) <= n
  }

  lemma ServedInTail<T(!new)>(run: seq<Lock<T>>, w: T, i: nat, n: nat)
    requires |run| > 1 && ServedWithin(run[1..], w, i, n)
    ensures ServedWithin(run, w, i + 1, n + (if IsHandoff(run[0], run[1]) then 1 else 0))
  {
    var head := run[..i + 2];
    assert head[1..] == run[1..][..i + 1];
    assert head[0] == run[0] && head[1] == run[1];
  }

  lemma ServedAtOnce<T(!new)>(run: seq<Lock<T>>, w: T)
    requires |run| > 1 && run[1].Held? && run[1].owner == w
    ensures ServedWithin(run, w, 1, 1)
  {
    assert run[..2][1..] == [run[1]];
  }

  /** The starvation bound: once a run has made `Budget` handoffs, the waiter has been served,
      and it was served within that many. */
  lemma {:induction false} BoundedBypass<T(!new)>(cap: nat, restart: nat, run: seq<Lock<T>>, w: T, k: nat)
    returns (served: nat)
    requires restart <= cap && IsRun(cap, restart, run) && Waits(run[0], w, k)
    ensures ServedWithin(run, w, served, Budget(cap, restart, k, run[0].batch))
         || Handoffs(run) < Budget(cap, restart, k, run[0].batch)
    decreases |run|
  {
    served := 0;
    if |run| > 1 {
      var n := Budget(cap, restart, k, run[0].batch);
      assert n >= 1 by { assert k * (cap + 1 - restart) >= 0; }
      assert StepAt(cap, restart, run, 0);
      var k' := StepSpendsBudget(cap, restart, run[0], run[1], w, k);
      if IsHandoff(run[0], run[1]) && run[1].owner == w {
        ServedAtOnce(run, w);
        served := 1;
      } else {
        RunTail(cap, restart, run);
        served := BoundedBypass(cap, restart, run[1..], w, k');
        var n' := Budget(cap, restart, k', run[1].batch);
        if ServedWithin(run[1..], w, served, n') {
          ServedInTail(run, w, served, n');
          served := served + 1;
        }
      }
    }
  }

  lemma {:induction false} RunIsSound<T(!new)>(cap: nat, restart: nat, run: seq<Lock<T>>, i: nat)
    requires restart <= cap && IsRun(cap, restart, run) && i < |run|
    ensures Sound(cap, run[i])
  {
    if i > 0 {
      RunIsSound(cap, restart, run, i - 1);
      assert StepAt(cap, restart, run, i - 1);
      StepIsSound(cap, restart, run[i - 1], run[i]);
    }
  }

  /** The bound from any state of a run on: w is served after at most `Budget` handoffs, or the
      run ends before making that many. */
  lemma {:induction false} NoStarvation<T(!new)>(cap: nat, restart: nat, run: seq<Lock<T>>, lo: nat, w: T, k: nat)
    returns (hi: nat)
    requires restart <= cap && IsRun(cap, restart, run) && lo < |run| && Waits(run[lo], w, k)
    ensures run[lo].batch <= cap
    ensures var bound := Budget(cap, restart, k, run[lo].batch);
            || (&& lo < hi < |run| && run[hi].Held? && run[hi].owner == w
                && HandoffsBetween(run, lo, hi) <= bound)
            || HandoffsBetween(run, lo, |run| - 1) < bound
  {
    var rest := run[lo..];
    RunIsSound(cap, restart, run, lo);
    forall i: nat | i < |rest| - 1 ensures StepAt(cap, restart, rest, i) {
      assert StepAt(cap, restart, run, lo + i);
    }
    var served := BoundedBypass(cap, restart, rest, w, k);
    hi := lo + served;
    HandoffsInSlice(run, lo, |run| - 1);
    assert rest == run[lo..|run| - 1 + 1];
    if hi < |run| {
      HandoffsInSlice(run, lo, hi);
      assert rest[..served + 1] == run[lo..hi + 1];
    }
  }

  // ----- The bound is exact --------------------------------------------------------------

  /** Nobody but those below `newcomer` has been seen yet. */
  ghost predicate Below(s: Lock<nat>, newcomer: nat) {
    s.Held? && s.owner < newcomer && forall i :: 0 <= i < |s.q.Order()| ==> s.q.Order()[i] < newcomer
  }

  /** A newcomer arrives and is picked, past everybody. */
  lemma {:induction false} NewcomerPasses(cap: nat, restart: nat, s: Lock<nat>, newcomer: nat)
    returns (s1: Lock<nat>, s2: Lock<nat>)
    requires Sound(cap, s) && Below(s, newcomer) && s.batch < cap
    ensures Step(cap, restart, s, s1) && !IsHandoff(s, s1)
    ensures Step(cap, restart, s1, s2) && IsHandoff(s1, s2)
    ensures Sound(cap, s2) && Below(s2, newcomer + 1)
    ensures s1.Held? && s2.batch == s.batch + 1 && s2.q.Order() == s.q.Order() <= s1.q.Order()
  {
    var q := s.q;
    s1 := Held(s.owner, Queue(q.sec, q.main + [newcomer]), s.batch);
    s2 := Held(newcomer, Queue(q.sec + q.main, []), s.batch + 1);
    assert Arrives(s, s1, newcomer);
    assert s1.q.Order() == q.Order() + [newcomer];
    assert (q.main + [newcomer])[..|q.main|] == q.main;
    assert HandsOff(cap, restart, s1, s2, Pick(|q.main|));
    assert s2.q.Order() == q.Order();
    assert forall i :: 0 <= i < |q.Order()| ==> ([s.owner] + q.Order())[i + 1] == q.Order()[i];
  }

  /** At the limit the oldest is served. */
  lemma {:induction false} OldestIsServed(cap: nat, restart: nat, s: Lock<nat>, newcomer: nat) returns (s': Lock<nat>)
    requires restart <= cap && Sound(cap, s) && Below(s, newcomer) && s.q.Order() != []
    ensures Step(cap, restart, s, s') && IsHandoff(s, s')
    ensures Sound(cap, s') && Below(s', newcomer)
    ensures s'.batch == restart && s'.owner == s.q.Order()[0] && s'.q.Order() == s.q.Order()[1..]
  {
    s' := Held(s.q.Order()[0], After(s.q, Oldest), restart);
    assert HandsOff(cap, restart, s, s', Oldest);
    StepIsSound(cap, restart, s, s');
    assert ([s.owner] + s.q.Order())[0] == s.owner && ([s.owner] + s.q.Order())[1] == s.q.Order()[0];
    assert s'.q.Order() == s.q.Order()[1..];
  }

  /** The waiter w is queued in every state of the run but the last, where it is served. */
  ghost predicate ServedLast<T(!new)>(run: seq<Lock<T>>, w: T) {
    && run != []
    && (forall i :: 0 <= i < |run| - 1 ==> run[i].Held? && w in run[i].q.Order())
    && run[|run| - 1].Held? && run[|run| - 1].owner == w
  }

  lemma Prepend<T(!new)>(cap: nat, restart: nat, s: Lock<T>, run: seq<Lock<T>>, w: T)
    requires IsRun(cap, restart, run) && ServedLast(run, w)
    requires Sound(cap, s) && Step(cap, restart, s, run[0]) && s.Held? && w in s.q.Order()
    ensures IsRun(cap, restart, [s] + run) && ServedLast([s] + run, w)
    ensures Handoffs([s] + run) == Handoffs(run) + (if IsHandoff(s, run[0]) then 1 else 0)
  {
    var all := [s] + run;
    forall i: nat | i < |all| - 1 ensures StepAt(cap, restart, all, i) && all[i].Held? && w in all[i].q.Order() {
      if i > 0 {
        assert StepAt(cap, restart, run, i - 1);
      }
    }
    assert all[1..] == run;
  }

  /** A run that serves the last waiter of s, no sooner than the budget allows. */
  ghost predicate Exhausts<T(!new)>(cap: nat, restart: nat, s: Lock<T>, run: seq<Lock<T>>) {
    && restart <= cap && IsRun(cap, restart, run) && run[0] == s
    && s.Held? && s.batch <= cap && s.q.Order() != []
    && ServedLast(run, s.q.Order()[|s.q.Order()| - 1])
    && Handoffs(run) == Budget(cap, restart, |s.q.Order()| - 1, s.batch)
  }

  lemma PassedOnce<T(!new)>(cap: nat, restart: nat, s: Lock<T>, s1: Lock<T>, s2: Lock<T>, rest: seq<Lock<T>>)
    requires Exhausts(cap, restart, s2, rest)
    requires Sound(cap, s) && Step(cap, restart, s, s1) && !IsHandoff(s, s1)
    requires Sound(cap, s1) && Step(cap, restart, s1, s2) && IsHandoff(s1, s2)
    requires s.Held? && s1.Held? && s2.batch == s.batch + 1 && s2.q.Order() == s.q.Order() <= s1.q.Order()
    ensures Exhausts(cap, restart, s, [s] + ([s1] + rest))
  {
    var w := s.q.Order()[|s.q.Order()| - 1];
    assert s1.q.Order()[|s.q.Order()| - 1] == w;
    Prepend(cap, restart, s1, rest, w);
    Prepend(cap, restart, s, [s1] + rest, w);
  }

  lemma OneServed<T(!new)>(cap: nat, restart: nat, s: Lock<T>, s': Lock<T>, rest: seq<Lock<T>>)
    requires Exhausts(cap, restart, s', rest)
    requires Sound(cap, s) && Step(cap, restart, s, s') && IsHandoff(s, s')
    requires s.batch == cap && s'.batch == restart && s.q.Order() != [] && s'.q.Order() == s.q.Order()[1..]
    ensures Exhausts(cap, restart, s, [s] + rest)
  {
    var k: nat := |s.q.Order()| - 1;
    LastIsLast(s.q.Order(), s'.q.Order());
    OnePlaceMore(cap, restart, k, s.batch);
    Prepend(cap, restart, s, rest, s.q.Order()[k]);
  }

  lemma LastIsLast<T>(o: seq<T>, o': seq<T>)
    requires o != [] && o' == o[1..] && o' != []
    ensures |o'| == |o| - 1 && o'[|o'| - 1] == o[|o| - 1]
  {
  }

  lemma LastServed<T(!new)>(cap: nat, restart: nat, s: Lock<T>, s': Lock<T>)
    requires restart <= cap && Sound(cap, s) && Sound(cap, s') && Step(cap, restart, s, s') && IsHandoff(s, s')
    requires s.batch == cap && |s.q.Order()| == 1 && s'.owner == s.q.Order()[0]
    ensures Exhausts(cap, restart, s, [s] + [s'])
  {
    Prepend(cap, restart, s, [s'], s.q.Order()[0]);
  }

  lemma OnePlaceMore(cap: nat, restart: nat, k: nat, batch: nat)
    requires restart <= cap == batch && k > 0
    ensures Budget(cap, restart, k, batch) == Budget(cap, restart, k - 1, restart) + 1
  {
    var c := cap + 1 - restart;
    assert k * c == (k - 1) * c + c;
  }

  /** No smaller bound holds: from any state, newcomers can keep its last waiter out for the whole
      budget of handoffs. */
  lemma {:induction false} BudgetIsReached(cap: nat, restart: nat, s: Lock<nat>, newcomer: nat)
    returns (run: seq<Lock<nat>>)
    requires restart <= cap && Sound(cap, s) && Below(s, newcomer) && s.q.Order() != []
    ensures Exhausts(cap, restart, s, run)
    decreases |s.q.Order()|, cap - s.batch
  {
    if s.batch < cap {
      var s1, s2 := NewcomerPasses(cap, restart, s, newcomer);
      StepIsSound(cap, restart, s, s1);
      var rest := BudgetIsReached(cap, restart, s2, newcomer + 1);
      PassedOnce(cap, restart, s, s1, s2, rest);
      run := [s] + ([s1] + rest);
    } else {
      var s' := OldestIsServed(cap, restart, s, newcomer);
      if |s.q.Order()| == 1 {
        LastServed(cap, restart, s, s');
        run := [s] + [s'];
      } else {
        var rest := BudgetIsReached(cap, restart, s', newcomer);
        OneServed(cap, restart, s, s', rest);
        run := [s] + rest;
      }
    }
  }
}
