/**
 The release paths of uxpick.c and cspick.c.  They differ only in the batch limit and in
 `find_successor`; the batch counter lives in the lock, survives a release that neither picks
 nor flushes, and is reset when the lock empties.
 */
module PickLock {
  import opened TwoQueue
  import Uta

  const UXPICK_THRESHOLD: nat := 100
  const CSPICK_THRESHOLD: nat := 50

  /** The answer of find_successor: an index in the main queue, or nobody. */
  predicate Answers<T>(s: Lock<T>, found: Option<nat>) {
    s.Held? && (found.Some? ==> found.value < |s.q.main|)
  }

  function Choose<T>(cap: nat, s: Lock<T>, found: Option<nat>): Choice
    requires Answers(s, found)
  {
    if s.q.main != [] && s.batch < cap && found.Some? then Pick(found.value) else Oldest
  }

  /** A release.  Granting the oldest leaves the batch alone when there was nothing to flush. */
  function Release<T>(cap: nat, s: Lock<T>, found: Option<nat>): Lock<T>
    requires Answers(s, found)
  {
    var Held(_, q, batch) := s;
    var c := Choose(cap, s, found);
    if q.Order() == [] then Free
    else
      Held(Granted(q, c), After(q, c),
           if c.Pick? then batch + 1 else if q.main == [] || q.sec != [] then 0 else batch)
  }

  ghost predicate Step<T(!new)>(cap: nat, s: Lock<T>, s': Lock<T>) {
    || (exists t :: Arrives(s, s', t))
    || (exists found :: Answers(s, found) && s' == Release(cap, s, found))
  }

  ghost predicate StepAt<T(!new)>(cap: nat, run: seq<Lock<T>>, i: nat)
    requires i + 1 < |run|
  {
    Step(cap, run[i], run[i + 1])
  }

  /** A run of a lock whose find_successor may answer anything. */
  ghost predicate IsRun<T(!new)>(cap: nat, run: seq<Lock<T>>) {
    && |run| > 0 && run[0] == Free
    && forall i: nat :: i < |run| - 1 ==> StepAt(cap, run, i)
  }

  /** What a release that finds somebody waiting does: below the limit it serves who was found, with
      the batch raised by one, and those before it join the secondary queue. Otherwise it serves the
      oldest of both queues and leaves one queue in arrival order; then it leaves the batch alone
      exactly when the main queue is not empty and the secondary one is, and else sets it to 0. */
  lemma ReleaseServes<T>(cap: nat, s: Lock<T>, found: Option<nat>)
    requires Answers(s, found) && s.q.sec + s.q.main != []
    ensures Release(cap, s, found).Held?
    ensures s.batch < cap && found.Some? ==>
      var j := found.value;
      Release(cap, s, found) == Held(s.q.main[j], Queue(s.q.sec + s.q.main[..j], s.q.main[j + 1..]), s.batch + 1)
    ensures !(s.batch < cap && found.Some?) ==>
      var line, s' := s.q.sec + s.q.main, Release(cap, s, found);
      && s'.owner == line[0] && s'.q == Queue([], line[1..])
      && (s.q.main != [] && s.q.sec == [] ==> s'.batch == s.batch)
      && (s.q.main == [] || s.q.sec != [] ==> s'.batch == 0)
  {
  }

  /** With nobody waiting it frees the lock. */
  lemma ReleaseFrees<T>(cap: nat, s: Lock<T>, found: Option<nat>)
    requires Answers(s, found) && s.q.sec + s.q.main == []
    ensures Release(cap, s, found) == Free
  {
  }

  lemma StepIsBounded<T(!new)>(cap: nat, s: Lock<T>, s': Lock<T>)
    requires Step(cap, s, s')
    ensures TwoQueue.Step(cap, 0, s, s')
  {
    if found :| Answers(s, found) && s' == Release(cap, s, found) {
      if s.q.Order() == [] {
        assert Vacates(s, s');
      } else {
        assert HandsOff(cap, 0, s, s', Choose(cap, s, found));
      }
    }
  }

  /** Whatever find_successor answers, a waiter with k waiters before it is served within
      k * (cap + 1) + cap + 1 - batch handoffs: cap is 100 in uxpick.c and 50 in cspick.c. */
  lemma {:induction false} NoStarvation<T(!new)>(cap: nat, run: seq<Lock<T>>, lo: nat, w: T, k: nat)
    returns (hi: nat)
    requires IsRun(cap, run) && lo < |run| && Waits(run[lo], w, k)
    ensures run[lo].batch <= cap
    ensures var bound := k * (cap + 1) + cap + 1 - run[lo].batch;
            || (&& lo < hi < |run| && run[hi].Held? && run[hi].owner == w
                && HandoffsBetween(run, lo, hi) <= bound)
            || HandoffsBetween(run, lo, |run| - 1) < bound
  {
    forall i: nat | i < |run| - 1 ensures TwoQueue.StepAt(cap, 0, run, i) {
      assert StepAt(cap, run, i);
      StepIsBounded(cap, run[i], run[i + 1]);
    }
    hi := TwoQueue.NoStarvation(cap, 0, run, lo, w, k);
  }

  // ----- The batch that is never reset -------------------------------------------------

  /** At the limit with an empty secondary queue there is nothing to flush, so the batch stays
      and the search stays off. */
  predicate Exhausted<T>(cap: nat, s: Lock<T>) {
    s.Held? && s.batch == cap && s.q.sec == []
  }

  function Line<T>(s: Lock<T>): seq<T> {
    if s.Held? then [s.owner] + s.q.main else []
  }

  lemma ExhaustedStep<T(!new)>(cap: nat, s: Lock<T>, s': Lock<T>)
    requires Exhausted(cap, s) && Step(cap, s, s') && s'.Held?
    ensures Exhausted(cap, s')
    ensures Line(s') == Line(s)[1..] || exists t :: Line(s') == Line(s) + [t]
  {
    if t :| Arrives(s, s', t) {
      assert Line(s') == Line(s) + [t];
    } else {
      var found :| Answers(s, found) && s' == Release(cap, s, found);
      assert s.q.Order() == s.q.main;
      assert Line(s') == Line(s)[1..];
    }
  }

  /** One more arrival, or one more served. */
  lemma {:induction false} LineMoves<T>(start: seq<T>, served: nat, arrived: seq<T>, l: seq<T>, l': seq<T>)
    returns (served': nat, arrived': seq<T>)
    requires served < |start + arrived| && l == (start + arrived)[served..] && |l'| > 0
    requires l' == l[1..] || exists t :: l' == l + [t]
    ensures served' < |start + arrived'| && l' == (start + arrived')[served'..]
  {
    if l' == l[1..] {
      served', arrived' := served + 1, arrived;
    } else {
      var t :| l' == l + [t];
      served', arrived' := served, arrived + [t];
      assert start + arrived' == (start + arrived) + [t];
    }
  }

  /** From such a state on, until the lock empties, it is first come, first served: the line is
      what it was plus the arrivals, less a prefix. */
  lemma {:induction false} ExhaustedIsFifo<T(!new)>(cap: nat, run: seq<Lock<T>>, lo: nat, hi: nat)
    returns (served: nat, arrived: seq<T>)
    requires IsRun(cap, run) && lo <= hi < |run| && Exhausted(cap, run[lo])
    requires forall i :: lo <= i <= hi ==> run[i].Held?
    ensures Exhausted(cap, run[hi])
    ensures served < |Line(run[lo]) + arrived|
    ensures Line(run[hi]) == (Line(run[lo]) + arrived)[served..]
  {
    if lo == hi {
      served, arrived := 0, [];
      assert Line(run[lo]) + [] == Line(run[lo]);
    } else {
      served, arrived := ExhaustedIsFifo(cap, run, lo, hi - 1);
      assert StepAt(cap, run, hi - 1);
      ExhaustedStep(cap, run[hi - 1], run[hi]);
      served, arrived := LineMoves(Line(run[lo]), served, arrived, Line(run[hi - 1]), Line(run[hi]));
    }
  }

  /** The only ways into that state: the pick that uses up the batch and passes nobody, with an empty
      secondary queue, as the last of the batch. A flush never leads there. */
  lemma ExhaustionIsEntered<T(!new)>(cap: nat, s: Lock<T>, s': Lock<T>)
    requires cap > 0 && Step(cap, s, s') && !Exhausted(cap, s) && Exhausted(cap, s')
    requires s.Held? ==> s.batch <= cap
    ensures s.Held? && s.q.sec == [] && s.q.main != [] && s.batch == cap - 1
    ensures s'.owner == s.q.main[0] && s'.q == Queue([], s.q.main[1..])
  {
    if t :| Arrives(s, s', t) {
    } else {
      var found :| Answers(s, found) && s' == Release(cap, s, found);
      assert s.q.Order() != [];
      ReleaseServes(cap, s, found);
    }
  }

  // ----- uxpick.c ----------------------------------------------------------------------

  /** A queued thread and its uxthread flag. */
  datatype UxWaiter<T> = UxWaiter(who: T, ux: bool)

  function FindUx<T>(ws: seq<UxWaiter<T>>): (r: Option<nat>)
    ensures r.Some? ==> r.value < |ws| && ws[r.value].ux
    ensures forall i :: 0 <= i < (if r.Some? then r.value else |ws|) ==> !ws[i].ux
  {
    if ws == [] then None
    else if ws[0].ux then Some(0)
    else match FindUx(ws[1..]) case None => None case Some(i) => Some(i + 1)
  }

  predicate Visible<T>(s: Lock<T>, visible: nat) { s.Held? && visible <= |s.q.main| }

  ghost predicate UxStep<T(!new)>(s: Lock<UxWaiter<T>>, s': Lock<UxWaiter<T>>) {
    || (exists t :: Arrives(s, s', t))
    || (exists v: nat :: Visible(s, v) && s' == Release(UXPICK_THRESHOLD, s, FindUx(s.q.main[..v])))
  }

  ghost predicate UxStepAt<T(!new)>(run: seq<Lock<UxWaiter<T>>>, i: nat)
    requires i + 1 < |run|
  {
    UxStep(run[i], run[i + 1])
  }

  ghost predicate IsUxRun<T(!new)>(run: seq<Lock<UxWaiter<T>>>) {
    && |run| > 0 && run[0] == Free
    && forall i: nat :: i < |run| - 1 ==> UxStepAt(run, i)
  }

  /** uxpick.c is one of the locks the starvation bound covers. */
  lemma UxRunIsRun<T(!new)>(run: seq<Lock<UxWaiter<T>>>)
    requires IsUxRun(run)
    ensures IsRun(UXPICK_THRESHOLD, run)
  {
    forall i: nat | i < |run| - 1 ensures StepAt(UXPICK_THRESHOLD, run, i) {
      assert UxStepAt(run, i);
      var s, s' := run[i], run[i + 1];
      if v: nat :| Visible(s, v) && s' == Release(UXPICK_THRESHOLD, s, FindUx(s.q.main[..v])) {
        assert Answers(s, FindUx(s.q.main[..v]));
      }
    }
  }

  ghost predicate SecIsNonUx<T>(s: Lock<UxWaiter<T>>) {
    s.Held? ==> forall i :: 0 <= i < |s.q.sec| ==> !s.q.sec[i].ux
  }

  lemma {:induction false} SecStaysNonUx<T(!new)>(run: seq<Lock<UxWaiter<T>>>, i: nat)
    requires IsUxRun(run) && i < |run|
    ensures SecIsNonUx(run[i])
  {
    if i > 0 {
      SecStaysNonUx(run, i - 1);
      var s := run[i - 1];
      assert UxStepAt(run, i - 1);
      if v: nat :| Visible(s, v) && run[i] == Release(UXPICK_THRESHOLD, s, FindUx(s.q.main[..v])) {
        assert forall j :: 0 <= j < v ==> s.q.main[..v][j] == s.q.main[j];
      }
    }
  }

  /** UX priority is safe: in every reachable state whoever passes older waiters is a ux thread
      and passes only non-ux threads; so both classes are served in arrival order among
      themselves and a non-ux thread never overtakes anyone. */
  lemma OnlyUxPassesNonUx<T(!new)>(run: seq<Lock<UxWaiter<T>>>, i: nat, v: nat, m: nat)
    requires IsUxRun(run) && i < |run| && Visible(run[i], v)
    requires var found := FindUx(run[i].q.main[..v]);
             m < Rank(run[i].q, Choose(UXPICK_THRESHOLD, run[i], found))
    ensures var s := run[i];
            var c := Choose(UXPICK_THRESHOLD, s, FindUx(s.q.main[..v]));
            && Allowed(s.q, c) && m < |s.q.Order()|
            && Release(UXPICK_THRESHOLD, s, FindUx(s.q.main[..v])).Held?
            && Release(UXPICK_THRESHOLD, s, FindUx(s.q.main[..v])).owner.ux
            && !s.q.Order()[m].ux
  {
    SecStaysNonUx(run, i);
    var s := run[i];
    var j := FindUx(s.q.main[..v]).value;
    assert s.q.main[..v][j] == s.q.main[j];
    if m >= |s.q.sec| {
      assert s.q.Order()[m] == s.q.main[..v][m - |s.q.sec|];
    }
  }

  /** A visible ux waiter does not always get its turn: at the batch limit the oldest is served.
      With one visible, the release serves a ux thread exactly when the batch is below the limit
      or the oldest waiter is itself a ux thread. */
  lemma UxIsServedIff<T(!new)>(s: Lock<UxWaiter<T>>, v: nat)
    requires Visible(s, v) && FindUx(s.q.main[..v]).Some?
    ensures s.q.Order() != [] && Release(UXPICK_THRESHOLD, s, FindUx(s.q.main[..v])).Held?
    ensures Release(UXPICK_THRESHOLD, s, FindUx(s.q.main[..v])).owner.ux
            <==> s.batch < 100 || s.q.Order()[0].ux
  {
    var j := FindUx(s.q.main[..v]).value;
    assert s.q.main[..v][j] == s.q.main[j];
  }

  /** And a release at the limit that flushes a secondary queue gives the priority back: if the next
      one sees a ux thread, it serves one. */
  lemma UxIsServedAfterFlush<T(!new)>(s: Lock<UxWaiter<T>>, v: nat, v': nat)
    requires Visible(s, v) && s.batch >= UXPICK_THRESHOLD && s.q.sec != []
    ensures var s' := Release(UXPICK_THRESHOLD, s, FindUx(s.q.main[..v]));
      && s'.Held? && s'.batch == 0
      && (Visible(s', v') && FindUx(s'.q.main[..v']).Some? ==>
            var s'' := Release(UXPICK_THRESHOLD, s', FindUx(s'.q.main[..v']));
            s''.Held? && s''.owner.ux && s''.batch == 1)
  {
    ReleaseServes(UXPICK_THRESHOLD, s, FindUx(s.q.main[..v]));
    var s' := Release(UXPICK_THRESHOLD, s, FindUx(s.q.main[..v]));
    if Visible(s', v') && FindUx(s'.q.main[..v']).Some? {
      UxIsServedIff(s', v');
      ReleaseServes(UXPICK_THRESHOLD, s', FindUx(s'.q.main[..v']));
    }
  }

  /** The favoured thread of a steady stream, with the next one waiting, or alone. */
  function Busy<T>(w: nat -> T, b: nat): Lock<T> { Held(w(b), Queue([], [w(b + 1)]), b) }

  function Alone<T>(w: nat -> T, b: nat): Lock<T> { Held(w(b), Queue([], []), b) }

  /** The stream: each release hands over to the next thread, and another arrives. */
  function Stream<T>(w: nat -> T, b: nat): (run: seq<Lock<T>>)
    ensures |run| == 2 * b + 3
    ensures run[0] == Free && run[|run| - 1] == Busy(w, b)
  {
    if b == 0 then [Free, Alone(w, 0), Busy(w, 0)] else Stream(w, b - 1) + [Alone(w, b), Busy(w, b)]
  }

  ghost predicate StreamStep<T(!new)>(cap: nat, w: nat -> T, s: Lock<T>, s': Lock<T>) {
    && (|| (exists t :: Arrives(s, s', t))
        || (exists k: nat :: k < cap && s == Busy(w, k) && s' == Release(cap, s, Some(0))))
    && exists k: nat :: s' == Busy(w, k) || s' == Alone(w, k)
  }

  /** The steps of a stream are arrivals, and releases that pick the head. */
  lemma {:induction false} StreamSteps<T(!new)>(cap: nat, w: nat -> T, b: nat, i: nat)
    requires b <= cap && i < 2 * b + 2
    requires forall x: nat, y: nat :: x != y ==> w(x) != w(y)
    ensures StreamStep(cap, w, Stream(w, b)[i], Stream(w, b)[i + 1])
  {
    if b == 0 {
      assert Arrives<T>(Free, Alone(w, 0), w(0));
      assert w(0) != w(1);
      assert Arrives(Alone(w, 0), Busy(w, 0), w(1));
      assert i == 0 || i == 1;
      assert Stream(w, 0)[i + 1] == if i == 0 then Alone(w, 0) else Busy(w, 0);
    } else if i < 2 * b {
      StreamSteps(cap, w, b - 1, i);
      assert Stream(w, b)[i] == Stream(w, b - 1)[i] && Stream(w, b)[i + 1] == Stream(w, b - 1)[i + 1];
    } else {
      var k: nat := b - 1;
      assert w(b) != w(b + 1);
      assert Arrives(Alone(w, b), Busy(w, b), w(b + 1));
      assert Release(cap, Busy(w, k), Some(0)) == Alone(w, b);
      assert Stream(w, b)[2 * b] == Busy(w, k) && Stream(w, b)[2 * b + 1] == Alone(w, b);
    }
  }

  /** The state without priority is reachable: a hundred ux threads in a row are enough. */
  lemma {:induction false} UxReachesExhaustion() returns (run: seq<Lock<UxWaiter<nat>>>)
    ensures IsUxRun(run) && Exhausted(UXPICK_THRESHOLD, run[|run| - 1])
    ensures forall i :: 0 <= i < |run| && run[i].Held? ==> run[i].owner.ux
  {
    var w := (n: nat) => UxWaiter(n, true);
    run := Stream(w, UXPICK_THRESHOLD);
    forall i: nat | i < |run| - 1 ensures UxStepAt(run, i) {
      StreamSteps(UXPICK_THRESHOLD, w, UXPICK_THRESHOLD, i);
      StreamIsUx(w, run[i], run[i + 1]);
    }
    forall i | 0 <= i < |run| && run[i].Held? ensures run[i].owner.ux {
      if i > 0 {
        StreamSteps(UXPICK_THRESHOLD, w, UXPICK_THRESHOLD, i - 1);
        StreamIsUx(w, run[i - 1], run[i]);
      }
    }
  }

  lemma StreamIsUx(w: nat -> UxWaiter<nat>, s: Lock<UxWaiter<nat>>, s': Lock<UxWaiter<nat>>)
    requires StreamStep(UXPICK_THRESHOLD, w, s, s') && forall n: nat :: w(n).ux
    ensures UxStep(s, s') && s'.Held? && s'.owner.ux
  {
    if k: nat :| k < UXPICK_THRESHOLD && s == Busy(w, k) && s' == Release(UXPICK_THRESHOLD, s, Some(0)) {
      assert Visible(s, 1) && FindUx(s.q.main[..1]) == Some(0);
    }
  }

  // ----- cspick.c ----------------------------------------------------------------------

  const MIN_THRESHOLD: int := 2
  const MAX_INT: int := 2147483647

  /** The best candidate behind the head, leftmost among equals. */
  function LeftmostMin<T>(ws: seq<Uta.Waiter<T>>): (r: Option<nat>)
    ensures r.Some? ==> 1 <= r.value < |ws|
  {
    if |ws| <= 1 then None
    else
      var n := |ws| - 1;
      var r := LeftmostMin(ws[..n]);
      if ws[n].len < (if r.Some? then ws[r.value].len else MAX_INT) then Some(n) else r
  }

  function FindShortOrMin<T>(ws: seq<Uta.Waiter<T>>): (r: Option<nat>)
    ensures r.Some? ==> r.value < |ws|
  {
    var j := Uta.FirstShort(ws, MIN_THRESHOLD);
    if j < |ws| then Some(j) else LeftmostMin(ws)
  }

  /** What LeftmostMin finds, without reference to how it searches. */
  lemma {:induction false} LeftmostMinIs<T>(ws: seq<Uta.Waiter<T>>)
    ensures var r := LeftmostMin(ws);
            && (r.None? <==> forall i :: 1 <= i < |ws| ==> ws[i].len >= MAX_INT)
            && (r.Some? ==>
                  && ws[r.value].len < MAX_INT
                  && (forall i :: 1 <= i < r.value ==> ws[i].len > ws[r.value].len)
                  && (forall i :: r.value < i < |ws| ==> ws[i].len >= ws[r.value].len))
  {
    if |ws| > 1 {
      var n := |ws| - 1;
      LeftmostMinIs(ws[..n]);
      var r0 := LeftmostMin(ws[..n]);
      assert forall i :: 0 <= i < n ==> ws[..n][i] == ws[i];
    }
  }

  /** cspick.c grants the first waiter shorter than 2; if there is none, the leftmost minimum of
      the waiters behind the head; nobody when all of those are at least MAX_INT. */
  lemma FindShortOrMinIs<T>(ws: seq<Uta.Waiter<T>>)
    ensures var r := FindShortOrMin(ws);
            && (r.None? <==> forall i :: 0 <= i < |ws| ==>
                  ws[i].len >= 2 && (i > 0 ==> ws[i].len >= 2147483647))
            && (r.Some? ==>
                  && r.value < |ws|
                  && (forall i :: 0 <= i < r.value ==> ws[i].len >= 2)
                  && (ws[r.value].len >= 2 ==>
                        && r.value >= 1
                        && (forall i :: 0 <= i < |ws| ==> ws[i].len >= 2)
                        && (forall i :: 1 <= i < r.value ==> ws[i].len > ws[r.value].len)
                        && (forall i :: r.value < i < |ws| ==> ws[i].len >= ws[r.value].len)))
  {
    LeftmostMinIs(ws);
  }

  ghost predicate CsStep<T(!new)>(s: Lock<Uta.Waiter<T>>, s': Lock<Uta.Waiter<T>>) {
    || (exists t :: Arrives(s, s', t))
    || (exists v: nat :: Visible(s, v) && s' == Release(CSPICK_THRESHOLD, s, FindShortOrMin(s.q.main[..v])))
  }

  ghost predicate CsStepAt<T(!new)>(run: seq<Lock<Uta.Waiter<T>>>, i: nat)
    requires i + 1 < |run|
  {
    CsStep(run[i], run[i + 1])
  }

  ghost predicate IsCsRun<T(!new)>(run: seq<Lock<Uta.Waiter<T>>>) {
    && |run| > 0 && run[0] == Free
    && forall i: nat :: i < |run| - 1 ==> CsStepAt(run, i)
  }

  /** cspick.c is one of the locks the starvation bound covers. */
  lemma CsRunIsRun<T(!new)>(run: seq<Lock<Uta.Waiter<T>>>)
    requires IsCsRun(run)
    ensures IsRun(CSPICK_THRESHOLD, run)
  {
    forall i: nat | i < |run| - 1 ensures StepAt(CSPICK_THRESHOLD, run, i) {
      assert CsStepAt(run, i);
      var s, s' := run[i], run[i + 1];
      if v: nat :| Visible(s, v) && s' == Release(CSPICK_THRESHOLD, s, FindShortOrMin(s.q.main[..v])) {
        assert Answers(s, FindShortOrMin(s.q.main[..v]));
      }
    }
  }

  ghost predicate SecIsNotShort<T>(s: Lock<Uta.Waiter<T>>) {
    s.Held? ==> forall i :: 0 <= i < |s.q.sec| ==> s.q.sec[i].len >= MIN_THRESHOLD
  }

  /** In every reachable state the secondary queue only holds threads that are not short. */
  lemma {:induction false} SecStaysNotShort<T(!new)>(run: seq<Lock<Uta.Waiter<T>>>, i: nat)
    requires IsCsRun(run) && i < |run|
    ensures SecIsNotShort(run[i])
  {
    if i > 0 {
      SecStaysNotShort(run, i - 1);
      var s := run[i - 1];
      assert CsStepAt(run, i - 1);
      if v: nat :| Visible(s, v) && run[i] == Release(CSPICK_THRESHOLD, s, FindShortOrMin(s.q.main[..v])) {
        ReleaseKeepsNotShort(s, v);
      }
    }
  }

  lemma ReleaseKeepsNotShort<T>(s: Lock<Uta.Waiter<T>>, v: nat)
    requires Visible(s, v) && SecIsNotShort(s)
    ensures SecIsNotShort(Release(CSPICK_THRESHOLD, s, FindShortOrMin(s.q.main[..v])))
  {
    var ws := s.q.main[..v];
    FindShortOrMinIs(ws);
    assert forall j :: 0 <= j < v ==> ws[j] == s.q.main[j];
  }

  /** The choice of a release that has seen v waiters of the main queue. */
  function CsChoice<T>(s: Lock<Uta.Waiter<T>>, v: nat): Choice
    requires Visible(s, v)
  {
    Choose(CSPICK_THRESHOLD, s, FindShortOrMin(s.q.main[..v]))
  }

  /** Everyone passed, in both queues, is longer than the thread granted. */
  ghost predicate PassesOnlyLonger<T>(q: Queue<Uta.Waiter<T>>, c: Choice)
    requires Allowed(q, c)
  {
    forall m :: 0 <= m < Rank(q, c) && m < |q.Order()| ==> q.Order()[m].len > Granted(q, c).len
  }

  ghost predicate SeesShort<T>(s: Lock<Uta.Waiter<T>>, v: nat)
    requires Visible(s, v)
  {
    exists j :: 0 <= j < v && s.q.main[j].len < MIN_THRESHOLD
  }

  /** Some waiter behind the head is shorter than the head and than the whole secondary queue. */
  ghost predicate SeesShortest<T>(s: Lock<Uta.Waiter<T>>, v: nat)
    requires Visible(s, v)
  {
    exists j :: 1 <= j < v && Shortest(s, j)
  }

  ghost predicate Shortest<T>(s: Lock<Uta.Waiter<T>>, j: nat)
    requires s.Held? && j < |s.q.main|
  {
    && s.q.main[j].len < s.q.main[0].len
    && forall i :: 0 <= i < |s.q.sec| ==> s.q.main[j].len < s.q.sec[i].len
  }

  /** What is passed by a pick: the secondary queue, and the main one up to the pick. */
  lemma PassedByPick<T>(q: Queue<Uta.Waiter<T>>, r: nat)
    requires r < |q.main|
    ensures PassesOnlyLonger(q, Pick(r)) <==>
      && (forall i :: 0 <= i < |q.sec| ==> q.sec[i].len > q.main[r].len)
      && (forall i :: 0 <= i < r ==> q.main[i].len > q.main[r].len)
  {
    var o := q.Order();
    if PassesOnlyLonger(q, Pick(r)) {
      forall i | 0 <= i < |q.sec| ensures q.sec[i].len > q.main[r].len {
        assert o[i] == q.sec[i];
      }
      forall i | 0 <= i < r ensures q.main[i].len > q.main[r].len {
        assert o[|q.sec| + i] == q.main[i];
      }
    }
  }

  lemma MinPickPassesIff<T>(s: Lock<Uta.Waiter<T>>, v: nat, r: nat)
    requires Visible(s, v) && FindShortOrMin(s.q.main[..v]) == Some(r) && !SeesShort(s, v)
    ensures PassesOnlyLonger(s.q, Pick(r)) <==> SeesShortest(s, v)
  {
    var ws := s.q.main[..v];
    FindShortOrMinIs(ws);
    PassedByPick(s.q, r);
    assert forall j :: 0 <= j < v ==> ws[j] == s.q.main[j];
    assert 1 <= r < v;
    if PassesOnlyLonger(s.q, Pick(r)) {
      assert Shortest(s, r);
    }
    if SeesShortest(s, v) {
      var j :| 1 <= j < v && Shortest(s, j);
      assert ws[r].len <= ws[j].len;
    }
  }

  lemma ShortPickPasses<T>(s: Lock<Uta.Waiter<T>>, v: nat, r: nat)
    requires SecIsNotShort(s) && Visible(s, v) && FindShortOrMin(s.q.main[..v]) == Some(r) && SeesShort(s, v)
    ensures s.q.main[r].len < MIN_THRESHOLD && PassesOnlyLonger(s.q, Pick(r))
  {
    var ws := s.q.main[..v];
    FindShortOrMinIs(ws);
    assert forall j :: 0 <= j < v ==> ws[j] == s.q.main[j];
    var j :| 0 <= j < v && s.q.main[j].len < MIN_THRESHOLD;
    assert ws[j].len < MIN_THRESHOLD;
    PassedByPick(s.q, r);
  }

  /** In every reachable state, a release that picks passes only longer threads, in both queues,
      exactly when it sees a short thread, or one behind the head that is shorter than the head and
      than everyone in the secondary queue. */
  lemma PassesOnlyLongerIff<T(!new)>(run: seq<Lock<Uta.Waiter<T>>>, i: nat, v: nat)
    requires IsCsRun(run) && i < |run| && Visible(run[i], v) && CsChoice(run[i], v).Pick?
    ensures PassesOnlyLonger(run[i].q, CsChoice(run[i], v)) <==> SeesShort(run[i], v) || SeesShortest(run[i], v)
  {
    SecStaysNotShort(run, i);
    var r := CsChoice(run[i], v).j;
    if SeesShort(run[i], v) {
      ShortPickPasses(run[i], v, r);
    } else {
      MinPickPassesIff(run[i], v, r);
    }
  }

  /** With a short thread in sight, the release serves a short one exactly when the batch is below
      the limit or the oldest waiter is itself short. */
  lemma ShortIsServedIff<T>(s: Lock<Uta.Waiter<T>>, v: nat)
    requires Visible(s, v) && SeesShort(s, v)
    ensures s.q.Order() != [] && Release(CSPICK_THRESHOLD, s, FindShortOrMin(s.q.main[..v])).Held?
    ensures Release(CSPICK_THRESHOLD, s, FindShortOrMin(s.q.main[..v])).owner.len < 2
            <==> s.batch < 50 || s.q.Order()[0].len < 2
  {
    var ws := s.q.main[..v];
    FindShortOrMinIs(ws);
    var j :| 0 <= j < v && s.q.main[j].len < MIN_THRESHOLD;
    assert ws[j] == s.q.main[j];
    var r := FindShortOrMin(ws).value;
    assert ws[r] == s.q.main[r];
  }

  /** And a release at the limit that flushes a secondary queue gives the priority back. */
  lemma ShortIsServedAfterFlush<T>(s: Lock<Uta.Waiter<T>>, v: nat, v': nat)
    requires Visible(s, v) && s.batch >= CSPICK_THRESHOLD && s.q.sec != []
    ensures var s' := Release(CSPICK_THRESHOLD, s, FindShortOrMin(s.q.main[..v]));
      && s'.Held? && s'.batch == 0
      && (Visible(s', v') && SeesShort(s', v') ==>
            var s'' := Release(CSPICK_THRESHOLD, s', FindShortOrMin(s'.q.main[..v']));
            s''.Held? && s''.owner.len < MIN_THRESHOLD && s''.batch == 1)
  {
    ReleaseServes(CSPICK_THRESHOLD, s, FindShortOrMin(s.q.main[..v]));
    var s' := Release(CSPICK_THRESHOLD, s, FindShortOrMin(s.q.main[..v]));
    if Visible(s', v') && SeesShort(s', v') {
      ShortIsServedIff(s', v');
      FindShortOrMinIs(s'.q.main[..v']);
      var j :| 0 <= j < v' && s'.q.main[j].len < MIN_THRESHOLD;
      assert s'.q.main[..v'][j] == s'.q.main[j];
      ReleaseServes(CSPICK_THRESHOLD, s', FindShortOrMin(s'.q.main[..v']));
    }
  }

  /** cspick.c gets to the state without priority too: fifty short threads in a row are enough. */
  lemma {:induction false} CsReachesExhaustion() returns (run: seq<Lock<Uta.Waiter<nat>>>)
    ensures IsCsRun(run) && Exhausted(CSPICK_THRESHOLD, run[|run| - 1])
    ensures forall i :: 0 <= i < |run| && run[i].Held? ==> run[i].owner.len < MIN_THRESHOLD
  {
    var w := (n: nat) => Uta.Waiter(n, 1);
    run := Stream(w, CSPICK_THRESHOLD);
    forall i: nat | i < |run| - 1 ensures CsStepAt(run, i) {
      StreamSteps(CSPICK_THRESHOLD, w, CSPICK_THRESHOLD, i);
      StreamIsShort(w, run[i], run[i + 1]);
    }
    forall i | 0 <= i < |run| && run[i].Held? ensures run[i].owner.len < MIN_THRESHOLD {
      if i > 0 {
        StreamSteps(CSPICK_THRESHOLD, w, CSPICK_THRESHOLD, i - 1);
        StreamIsShort(w, run[i - 1], run[i]);
      }
    }
  }

  lemma StreamIsShort(w: nat -> Uta.Waiter<nat>, s: Lock<Uta.Waiter<nat>>, s': Lock<Uta.Waiter<nat>>)
    requires StreamStep(CSPICK_THRESHOLD, w, s, s') && forall n: nat :: w(n).len < MIN_THRESHOLD
    ensures CsStep(s, s') && s'.Held? && s'.owner.len < MIN_THRESHOLD
  {
    if k: nat :| k < CSPICK_THRESHOLD && s == Busy(w, k) && s' == Release(CSPICK_THRESHOLD, s, Some(0)) {
      assert Visible(s, 1) && FindShortOrMin(s.q.main[..1]) == Some(0);
    }
  }

  /** The head can lose to a longer waiter: lengths 5 and 9, and 9 is granted. */
  lemma HeadCanLoseToALongerSection()
    ensures FindShortOrMin([Uta.Waiter(0, 5), Uta.Waiter(1, 9)]) == Some(1)
  {
    var ws := [Uta.Waiter(0, 5), Uta.Waiter(1, 9)];
    assert Uta.FirstShort(ws, MIN_THRESHOLD) == 2;
    assert LeftmostMin(ws[..1]) == None;
  }

  function W(who: nat, len: int): Uta.Waiter<nat> { Uta.Waiter(who, len) }

  lemma {:induction false} CsArrives(run: seq<Lock<Uta.Waiter<nat>>>, s: Lock<Uta.Waiter<nat>>, t: Uta.Waiter<nat>)
    returns (run': seq<Lock<Uta.Waiter<nat>>>)
    requires IsCsRun(run) && Arrives(run[|run| - 1], s, t)
    ensures IsCsRun(run') && run'[|run'| - 1] == s
  {
    run' := run + [s];
    CsExtends(run, s);
  }

  lemma {:induction false} CsReleases(run: seq<Lock<Uta.Waiter<nat>>>, s: Lock<Uta.Waiter<nat>>, v: nat)
    returns (run': seq<Lock<Uta.Waiter<nat>>>)
    requires IsCsRun(run) && Visible(run[|run| - 1], v)
    requires s == Release(CSPICK_THRESHOLD, run[|run| - 1], FindShortOrMin(run[|run| - 1].q.main[..v]))
    ensures IsCsRun(run') && run'[|run'| - 1] == s
  {
    run' := run + [s];
    CsExtends(run, s);
  }

  lemma CsExtends(run: seq<Lock<Uta.Waiter<nat>>>, s: Lock<Uta.Waiter<nat>>)
    requires IsCsRun(run) && CsStep(run[|run| - 1], s)
    ensures IsCsRun(run + [s])
  {
    var run' := run + [s];
    forall i: nat | i < |run'| - 1 ensures CsStepAt(run', i) {
      if i < |run| - 1 {
        assert CsStepAt(run, i);
      }
    }
  }

  /** The first pick of the example: 2 is granted past 3. */
  lemma {:induction false} ThreeIsPassed() returns (run: seq<Lock<Uta.Waiter<nat>>>)
    ensures IsCsRun(run) && run[|run| - 1] == Held(W(2, 2), Queue([W(1, 3)], []), 1)
  {
    var h, a, b := W(0, 9), W(1, 3), W(2, 2);
    run := CsArrives([Free], Held(h, Queue([], []), 0), h);
    run := CsArrives(run, Held(h, Queue([], [a]), 0), a);
    run := CsArrives(run, Held(h, Queue([], [a, b]), 0), b);
    assert FindShortOrMin([a, b]) == Some(1) by { FindShortOrMinIs([a, b]); }
    assert [a, b][..2] == [a, b];
    run := CsReleases(run, Held(b, Queue([a], []), 1), 2);
  }

  /** The secondary queue can lose to a longer section as well: here the head, of length 10, is
      passed by a shorter section, but the older waiter of length 3 is passed by it too, and it has
      length 5. */
  lemma {:induction false} SecCanLoseToALongerSection() returns (run: seq<Lock<Uta.Waiter<nat>>>)
    ensures IsCsRun(run)
    ensures var s := run[|run| - 1];
            && Visible(s, 2) && CsChoice(s, 2) == Pick(1)
            && s.q == Queue([W(1, 3)], [W(3, 10), W(4, 5)])
            && Granted(s.q, Pick(1)) == W(4, 5) && Rank(s.q, Pick(1)) == 2
  {
    var b, a, c, d := W(2, 2), W(1, 3), W(3, 10), W(4, 5);
    run := ThreeIsPassed();
    run := CsArrives(run, Held(b, Queue([a], [c]), 1), c);
    run := CsArrives(run, Held(b, Queue([a], [c, d]), 1), d);
    assert FindShortOrMin([c, d]) == Some(1) by { FindShortOrMinIs([c, d]); }
    assert [c, d][..2] == [c, d];
  }
}
