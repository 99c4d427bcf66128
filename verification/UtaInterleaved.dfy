/** uta.c under every interleaving: the abstract lock of module Uta is what its threads see. */
module UtaInterleaved {
  import opened TwoQueue
  import opened Uta
  import opened FineLock
  import opened FineLockProof
  import opened FineLockTheorems

  ghost predicate IsUtaExecution(ms: seq<Memory>, acts: seq<Act>) {
    && IsExecution(ms, acts)
    && forall i: nat :: i < |acts| ==> ChoosesAt(ms, acts, i)
  }

  predicate ChoosesAt(ms: seq<Memory>, acts: seq<Act>, i: nat)
    requires i < |acts| <= |ms|
  {
    UtaChoice(ms[i], acts[i].0, acts[i].1)
  }

  /** What a scan under way has established about the nodes behind it. */
  ghost predicate ScanPassedLong(m: Memory, a: Abs) {
    a.Held? ==>
      match At(m, a.owner.who).pc
      case Scan(cur, _, _) =>
        var k := IndexOf(a.q.main, cur);
        && (k > 0 ==> a.batch < SHORT_BATCH_THRESHOLD)
        && (forall i :: 0 <= i < k ==> a.q.main[i].len >= m.threshold)
      case Missed(cur, _) =>
        var k := IndexOf(a.q.main, cur);
        && a.batch < SHORT_BATCH_THRESHOLD
        && (forall i :: 0 <= i <= k && i < |a.q.main| ==> a.q.main[i].len >= m.threshold)
      case _ => true
  }

  function Seen(m: Memory, a: Abs): Uta.State<Tid> { State(a, m.threshold) }

  lemma LenIs(m: Memory, a: Abs, k: nat)
    requires Related(m, a) && a.Held? && k < |a.q.main|
    ensures At(m, a.q.main[k].who).len == a.q.main[k].len
  {
    var all, i := All(a), 1 + |a.q.sec| + k;
    assert all[i] == a.q.main[k];
    assert At(m, all[i].who).len == all[i].len;
  }

  /** After a decision the new owner waits for the grant, so no scan is under way. */
  lemma NoScanAfterDecision(m: Memory, t: Tid, a: Abs)
    requires Related(m, a) && a.Held? && At(m, t).pc.Granting?
    ensures ScanPassedLong(m, a)
  {
  }

  /** What a step of a thread is to the abstract lock: joining the queue is an arrival, and a
      decision, or emptying the tail, is a release that saw the nodes the scan has reached. */
  function EventOf(m: Memory, t: Tid, l: Label, a: Abs): Uta.Event<Tid>
    requires Enabled(m, t, l)
  {
    match l
    case Exchange => Arrival(Waiter(t, At(m, t).len))
    case Cas => if m.tail == Some(t) then Unlock(0) else Stutter
    case PickCur(_, _) => if a.Held? then Unlock(IndexOf(a.q.main, At(m, t).pc.cur) + 1) else Stutter
    case Flush(_, _) => if a.Held? then Unlock(IndexOf(a.q.main, At(m, t).pc.cur) + 1) else Stutter
    case _ => Stutter
  }

  /** A decision is a release that saw the nodes up to the scan position. */
  lemma PickIsRelease(m: Memory, t: Tid, l: Label, a: Abs)
    requires Related(m, a) && ScanPassedLong(m, a) && Enabled(m, t, l) && UtaChoice(m, t, l)
    requires l.PickCur?
    ensures Does(Seen(m, a), EventOf(m, t, l, a), Seen(Do(m, t, l), Effect(m, t, l, a)))
  {
    var k := ScanStands(m, t, a);
    var s := Seen(m, a);
    LenIs(m, a, k);
    FirstShortIs(a.q.main[..k + 1], m.threshold, k);
    PickStores(m, t, l);
    ReleasePicks(s, k, l.batch, l.threshold);
    assert Effect(m, t, l, a) == HandOver(a, Pick(k), l.batch);
    assert EventOf(m, t, l, a) == Unlock(k + 1);
  }

  lemma PickStores(m: Memory, t: Tid, l: Label)
    requires Enabled(m, t, l) && l.PickCur?
    ensures Do(m, t, l).threshold == l.threshold
  {
  }

  lemma ReleasePicks(s: Uta.State<Tid>, k: nat, b: nat, thr: int)
    requires s.lock.Held? && k < |s.lock.q.main| && s.lock.batch < SHORT_BATCH_THRESHOLD
    requires FirstShort(s.lock.q.main[..k + 1], s.threshold) == k
    requires b == s.lock.batch + 1 && thr == AfterPick(s.threshold, s.lock.batch)
    ensures MayRelease(s, k + 1) && State(HandOver(s.lock, Pick(k), b), thr) == Release(s, k + 1)
  {
    assert s.lock.q.Order() != [];
    assert Decision(s, k + 1) == Pick(k);
  }

  lemma FlushIsRelease(m: Memory, t: Tid, l: Label, a: Abs)
    requires Related(m, a) && ScanPassedLong(m, a) && Enabled(m, t, l) && UtaChoice(m, t, l)
    requires l.Flush?
    ensures Does(Seen(m, a), EventOf(m, t, l, a), Seen(Do(m, t, l), Effect(m, t, l, a)))
  {
    var k := ScanStands(m, t, a);
    var s := Seen(m, a);
    var j := FirstShort(a.q.main[..k + 1], m.threshold);
    assert forall i :: 0 <= i <= k ==> a.q.main[..k + 1][i] == a.q.main[i];
    assert MayRelease(s, k + 1) && Decision(s, k + 1) == Oldest;
    assert a.q.Order() != [];
    assert Effect(m, t, l, a) == HandOver(a, Oldest, 1);
    assert Do(m, t, l).threshold == l.threshold;
    assert Seen(Do(m, t, l), Effect(m, t, l, a)) == Release(s, k + 1);
  }

  lemma CasIsRelease(m: Memory, t: Tid, a: Abs)
    requires Related(m, a) && Enabled(m, t, Cas)
    ensures Does(Seen(m, a), EventOf(m, t, Cas, a), Seen(Do(m, t, Cas), Effect(m, t, Cas, a)))
  {
    if m.tail == Some(t) {
      DrainKeeps(m, t, a);
      var s := Seen(m, a);
      assert MayRelease(s, 0);
      assert Seen(Do(m, t, Cas), Effect(m, t, Cas, a)) == Release(s, 0);
    }
  }

  lemma ExchangeIsArrival(m: Memory, t: Tid, a: Abs)
    requires Related(m, a) && Enabled(m, t, Exchange)
    ensures Does(Seen(m, a), EventOf(m, t, Exchange, a), Seen(Do(m, t, Exchange), Effect(m, t, Exchange, a)))
  {
    var w := Waiter(t, At(m, t).len);
    if a.Held? {
      ExchangeOnHeld(m, t, a);
      assert All(a)[0] == a.owner;
      assert forall i :: 0 <= i < |a.q.Order()| ==> a.q.Order()[i] == All(a)[i + 1];
    }
    assert IsNew(Seen(m, a), w);
    assert Seen(Do(m, t, Exchange), Effect(m, t, Exchange, a)) == Arrive(Seen(m, a), w);
  }

  /** Every step of a thread running uta.c is a step of the abstract lock, or none at all. */
  lemma StepSimulates(m: Memory, t: Tid, l: Label, a: Abs)
    requires Related(m, a) && ScanPassedLong(m, a) && Enabled(m, t, l) && UtaChoice(m, t, l)
    ensures Does(Seen(m, a), EventOf(m, t, l, a), Seen(Do(m, t, l), Effect(m, t, l, a)))
  {
    match l
    case PickCur(_, _) => PickIsRelease(m, t, l, a);
    case Flush(_, _) => FlushIsRelease(m, t, l, a);
    case Cas => CasIsRelease(m, t, a);
    case Exchange => ExchangeIsArrival(m, t, a);
    case _ =>
  }

  lemma {:induction false} IndexOfLonger(ws: seq<Waiter<Tid>>, w: Waiter<Tid>, t: Tid)
    ensures IndexOf(ws, t) < |ws| ==> IndexOf(ws + [w], t) == IndexOf(ws, t)
  {
    if ws != [] && ws[0].who != t {
      IndexOfLonger(ws[1..], w, t);
      assert (ws + [w])[1..] == ws[1..] + [w];
    }
  }

  /** The node the scan stopped at is long, and the batch allowed the scan. */
  lemma {:induction false} PassedIsLong(m: Memory, t: Tid, l: Label, a: Abs) returns (k: nat)
    requires Related(m, a) && ScanPassedLong(m, a) && Enabled(m, t, l) && UtaChoice(m, t, l)
    requires l.Advance? || l.EndScan?
    ensures a.Held? && t == a.owner.who && a.batch < SHORT_BATCH_THRESHOLD
    ensures k < |a.q.main| && IndexOf(a.q.main, At(m, t).pc.cur) == k && a.q.main[k].who == At(m, t).pc.cur
    ensures forall i :: 0 <= i <= k ==> a.q.main[i].len >= m.threshold
  {
    k := ScanStands(m, t, a);
    LenIs(m, a, k);
  }

  lemma AdvanceKeepsPolicy(m: Memory, t: Tid, keep: bool, a: Abs)
    requires Related(m, a) && ScanPassedLong(m, a)
    requires Enabled(m, t, Advance(keep)) && UtaChoice(m, t, Advance(keep))
    ensures ScanPassedLong(Do(m, t, Advance(keep)), a)
  {
    var k := PassedIsLong(m, t, Advance(keep), a);
    assert Before(a, k + 1) == At(m, t).pc.cur;
    assert k + 1 < |a.q.main| ==> MainNode(m, a, k + 1);
    IndexIs(a, k + 1);
  }

  lemma EndScanKeepsPolicy(m: Memory, t: Tid, a: Abs)
    requires Related(m, a) && ScanPassedLong(m, a) && Enabled(m, t, EndScan(false)) && UtaChoice(m, t, EndScan(false))
    ensures ScanPassedLong(Do(m, t, EndScan(false)), a)
  {
    var k := PassedIsLong(m, t, EndScan(false), a);
  }

  lemma FirstReadKeepsPolicy(m: Memory, t: Tid, l: Label, a: Abs)
    requires Related(m, a) && Enabled(m, t, l) && (l.ReadNext? || l.SeeLink?)
    ensures ScanPassedLong(Do(m, t, l), a)
  {
    ReleaserOwns(m, a, t);
    if At(m, t).next.Some? {
      NextIsFirst(m, a);
      IndexIs(a, 0);
    }
  }

  lemma ArrivalKeepsPolicy(m: Memory, t: Tid, a: Abs)
    requires Related(m, a) && ScanPassedLong(m, a) && Enabled(m, t, Exchange)
    ensures ScanPassedLong(Do(m, t, Exchange), Effect(m, t, Exchange, a))
  {
    if a.Held? {
      ExchangeOnHeld(m, t, a);
      var o := a.owner.who;
      assert o != t by { MembersOf(a); }
      if At(m, o).pc.Scan? || At(m, o).pc.Missed? {
        var k := ScanStands(m, o, a);
        IndexOfLonger(a.q.main, Waiter(t, At(m, t).len), At(m, o).pc.cur);
      }
    }
  }

  lemma OtherStepsKeepPolicy(m: Memory, t: Tid, l: Label, a: Abs)
    requires Related(m, a) && ScanPassedLong(m, a) && Enabled(m, t, l)
    requires l.Enter? || l.Link? || l.Observe? || l.Store? || l.Cas?
    requires !Decides(m, t, l)
    ensures ScanPassedLong(Do(m, t, l), Effect(m, t, l, a))
  {
    var c := DecisionIsHandoff(m, t, l, a);
    if l.Link? {
      var i := LinkerIs(m, t, a);
    }
  }

  lemma StepKeepsPolicy(m: Memory, t: Tid, l: Label, a: Abs)
    requires Related(m, a) && ScanPassedLong(m, a) && Enabled(m, t, l) && UtaChoice(m, t, l)
    ensures ScanPassedLong(Do(m, t, l), Effect(m, t, l, a))
  {
    if Decides(m, t, l) {
      StepKeeps(m, t, l, a);
      var c := DecisionIsHandoff(m, t, l, a);
      NoScanAfterDecision(Do(m, t, l), t, Effect(m, t, l, a));
    } else {
      match l
      case Advance(keep) => AdvanceKeepsPolicy(m, t, keep, a);
      case EndScan(_) => EndScanKeepsPolicy(m, t, a);
      case ReadNext => FirstReadKeepsPolicy(m, t, l, a);
      case SeeLink => FirstReadKeepsPolicy(m, t, l, a);
      case Exchange => ArrivalKeepsPolicy(m, t, a);
      case PickCur(_, _) =>
      case PickBest(_, _) =>
      case Flush(b, thr) => FlushKeeps(m, t, b, thr, a); var k := ScanStands(m, t, a);
      case _ => OtherStepsKeepPolicy(m, t, l, a);
    }
  }

  ghost function EventAt(ms: seq<Memory>, acts: seq<Act>, i: nat): Uta.Event<Tid>
    requires AllEnabled(ms, acts) && i < |acts|
  {
    assert EnabledAt(ms, acts, i);
    EventOf(ms[i], acts[i].0, acts[i].1, History(ms, acts, i))
  }

  lemma {:induction false} AlwaysSimulates(ms: seq<Memory>, acts: seq<Act>, i: nat)
    requires IsUtaExecution(ms, acts) && i < |ms|
    ensures Related(ms[i], History(ms, acts, i)) && ScanPassedLong(ms[i], History(ms, acts, i))
    ensures i > 0 ==>
      Does(Seen(ms[i - 1], History(ms, acts, i - 1)), EventAt(ms, acts, i - 1), Seen(ms[i], History(ms, acts, i)))
  {
    AlwaysRelated(ms, acts, i);
    if i > 0 {
      AlwaysSimulates(ms, acts, i - 1);
      var (t, l) := acts[i - 1];
      assert FineLockTheorems.StepAt(ms, acts, i - 1);
      assert EnabledAt(ms, acts, i - 1) && ChoosesAt(ms, acts, i - 1);
      StepSimulates(ms[i - 1], t, l, History(ms, acts, i - 1));
      StepKeepsPolicy(ms[i - 1], t, l, History(ms, acts, i - 1));
    }
  }

  /** The run of the abstract lock behind an execution. */
  ghost function Run(ms: seq<Memory>, acts: seq<Act>): (run: seq<Uta.State<Tid>>)
    requires IsUtaExecution(ms, acts)
    ensures |run| == |ms|
    ensures forall i {:trigger run[i]} :: 0 <= i < |ms| ==> run[i] == Seen(ms[i], History(ms, acts, i))
  {
    seq(|ms|, i requires 0 <= i < |ms| => Seen(ms[i], History(ms, acts, i)))
  }

  ghost function Events(ms: seq<Memory>, acts: seq<Act>): (evs: seq<Uta.Event<Tid>>)
    requires IsUtaExecution(ms, acts)
    ensures |evs| == |acts|
    ensures forall i {:trigger evs[i]} :: 0 <= i < |acts| ==> evs[i] == EventAt(ms, acts, i)
  {
    seq(|acts|, i requires 0 <= i < |acts| => EventAt(ms, acts, i))
  }

  /** Every interleaving of uta.c's lock and unlock paths is a run of the abstract lock, and this is
      what its steps are. */
  lemma ExecutionsAreRuns(ms: seq<Memory>, acts: seq<Act>)
    requires IsUtaExecution(ms, acts)
    ensures IsRunOf(Run(ms, acts), Events(ms, acts)) && Uta.IsRun(Run(ms, acts))
  {
    var run, evs := Run(ms, acts), Events(ms, acts);
    assert run[0] == Init();
    forall i: nat | i < |evs| ensures DoesAt(run, evs, i) {
      StepIsEvent(ms, acts, i);
    }
    RunOfIsRun(run, evs);
  }

  lemma StepIsEvent(ms: seq<Memory>, acts: seq<Act>, i: nat)
    requires IsUtaExecution(ms, acts) && i < |acts|
    ensures DoesAt(Run(ms, acts), Events(ms, acts), i)
  {
    AlwaysSimulates(ms, acts, i + 1);
    assert Run(ms, acts)[i + 1] == Seen(ms[i + 1], History(ms, acts, i + 1));
    assert Run(ms, acts)[i] == Seen(ms[i], History(ms, acts, i));
  }

  // ----- Consequences, stated on executions --------------------------------------------

  /** Decisions taken between two states of an execution. */
  function Decisions(ms: seq<Memory>, acts: seq<Act>, lo: nat, hi: nat): nat
    requires AllEnabled(ms, acts) && lo <= hi <= |acts|
  {
    if lo == hi then 0
    else Decisions(ms, acts, lo, hi - 1)
         + (if DecidesAt(ms, acts, hi - 1) then 1 else 0)
  }

  lemma StepCounts(ms: seq<Memory>, acts: seq<Act>, i: nat)
    requires IsUtaExecution(ms, acts) && i < |acts|
    ensures IsHandoff(Run(ms, acts)[i].lock, Run(ms, acts)[i + 1].lock)
            <==> DecidesAt(ms, acts, i)
  {
    AlwaysRelated(ms, acts, i);
    var a := History(ms, acts, i);
    assert EnabledAt(ms, acts, i);
    var c := DecisionIsHandoff(ms[i], acts[i].0, acts[i].1, a);
    assert Run(ms, acts)[i + 1].lock == Effect(ms[i], acts[i].0, acts[i].1, a);
  }

  lemma LocksCount(ms: seq<Memory>, acts: seq<Act>, i: nat)
    requires IsUtaExecution(ms, acts) && i < |acts|
    ensures IsHandoff(Locks(Run(ms, acts))[i], Locks(Run(ms, acts))[i + 1]) <==> DecidesAt(ms, acts, i)
  {
    StepCounts(ms, acts, i);
  }

  lemma {:induction false} DecisionsAreHandoffs(ms: seq<Memory>, acts: seq<Act>, lo: nat, hi: nat)
    requires IsUtaExecution(ms, acts) && lo <= hi <= |acts|
    ensures Decisions(ms, acts, lo, hi) == HandoffsBetween(Locks(Run(ms, acts)), lo, hi)
  {
    if lo < hi {
      var ls, n := Locks(Run(ms, acts)), hi - 1;
      DecisionsAreHandoffs(ms, acts, lo, n);
      LocksCount(ms, acts, n);
      assert HandoffsBetween(ls, lo, hi) == HandoffsBetween(ls, lo, n) + (if IsHandoff(ls[n], ls[hi]) then 1 else 0);
    }
  }

  /** The thread is inside, releasing, granted, or its grant is on the way. */
  ghost predicate Chosen(m: Memory, t: Tid) {
    || HasToken(m, t)
    || exists g :: At(m, g).pc.Granting? && At(m, g).pc.to == t
  }

  lemma OwnerIsChosen(m: Memory, a: Abs)
    requires Related(m, a) && a.Held?
    ensures Chosen(m, a.owner.who)
  {
  }

  lemma {:induction false} OwnerWithin(ms: seq<Memory>, acts: seq<Act>, lo: nat, w: Waiter<Tid>, k: nat)
    returns (hi: nat)
    requires IsUtaExecution(ms, acts) && lo <= |acts| && Waits(History(ms, acts, lo), w, k)
    ensures History(ms, acts, lo).batch <= 1000
    ensures var bound := k * 1000 + 1001 - History(ms, acts, lo).batch;
            || (&& lo < hi <= |acts| && History(ms, acts, hi).Held? && History(ms, acts, hi).owner == w
                && Decisions(ms, acts, lo, hi) <= bound)
            || Decisions(ms, acts, lo, |acts|) < bound
  {
    var run := Run(ms, acts);
    ExecutionsAreRuns(ms, acts);
    hi := Uta.NoStarvation(run, lo, w, k);
    DecisionsAreHandoffs(ms, acts, lo, |acts|);
    if lo < hi <= |acts| {
      DecisionsAreHandoffs(ms, acts, lo, hi);
    }
  }

  /** No starvation in any interleaving: a thread with k earlier arrivals still unserved is
      chosen within k * 1000 + 1001 - b decisions, b being the batch of the token. */
  lemma {:induction false} NoThreadStarves(ms: seq<Memory>, acts: seq<Act>, lo: nat, t: Tid, k: nat)
    returns (hi: nat)
    requires IsUtaExecution(ms, acts) && lo <= |acts|
    requires k < |Unserved(ms, acts, lo)| && Unserved(ms, acts, lo)[k] == t
    ensures History(ms, acts, lo).Held? && History(ms, acts, lo).batch <= 1000
    ensures var bound := k * 1000 + 1001 - History(ms, acts, lo).batch;
            || (lo < hi <= |acts| && Chosen(ms[hi], t) && Decisions(ms, acts, lo, hi) <= bound)
            || Decisions(ms, acts, lo, |acts|) < bound
  {
    QueuesAreTheArrivalOrder(ms, acts, lo);
    var w := WaitersOf(History(ms, acts, lo))[k];
    hi := OwnerWithin(ms, acts, lo, w, k);
    if lo < hi <= |acts| && History(ms, acts, hi).Held? && History(ms, acts, hi).owner == w {
      AlwaysRelated(ms, acts, hi);
      OwnerIsChosen(ms[hi], History(ms, acts, hi));
    }
  }

  /** The grantee's place in the order is the rank of the choice. */
  lemma GranteeHasRank(a: Abs, c: Choice, late: nat)
    requires a.Held? && DistinctIds(All(a)) && Allowed(a.q, c) && late < |a.q.Order()|
    requires a.q.Order()[late].who == Granted(a.q, c).who
    ensures late == Rank(a.q, c)
  {
    HandoffRemovesOne(a.q, c);
    forall i, j | 0 <= i < j < |a.q.Order()| ensures a.q.Order()[i].who != a.q.Order()[j].who {
      assert All(a)[i + 1].who != All(a)[j + 1].who;
    }
  }

  lemma LenInOrder(m: Memory, a: Abs, i: nat)
    requires Related(m, a) && a.Held? && i < |a.q.Order()|
    ensures At(m, a.q.Order()[i].who).len == a.q.Order()[i].len
  {
    assert All(a)[i + 1] == a.q.Order()[i];
  }

  lemma ChoicePassesLonger(m: Memory, t: Tid, l: Label, a: Abs, early: nat, late: nat)
    requires Related(m, a) && ScanPassedLong(m, a) && SecIsLong(Seen(m, a))
    requires Enabled(m, t, l) && UtaChoice(m, t, l) && Decides(m, t, l)
    requires a.Held? && early < late < |a.q.Order()|
    requires a.q.Order()[late].who == At(Do(m, t, l), t).pc.to
    ensures At(m, a.q.Order()[late].who).len < At(m, a.q.Order()[early].who).len
  {
    DecidingLabel(m, t, l);
    var c := DecisionIsHandoff(m, t, l, a);
    GranteeHasRank(a, c, late);
    LenInOrder(m, a, early);
    LenInOrder(m, a, late);
    assert All(a)[1].who != All(a)[late + 1].who;
    if l.Flush? || l.Cas? {
      GrantsOldest(m, t, l, a);
    } else {
      var k := PickGrants(m, t, l, a);
      EarlyIsLong(a, m.threshold, k, early);
    }
  }

  lemma EarlyIsLong(a: Abs, thr: int, k: nat, early: nat)
    requires a.Held? && k <= |a.q.main| && early < |a.q.sec| + k
    requires forall i :: 0 <= i < |a.q.sec| ==> a.q.sec[i].len >= thr
    requires forall i :: 0 <= i < k ==> a.q.main[i].len >= thr
    ensures a.q.Order()[early].len >= thr
  {
  }

  /** In any interleaving, whoever is chosen has come with a strictly shorter predicted section than
      every earlier arrival it passes. */
  lemma ChosenPassOnlyLonger(ms: seq<Memory>, acts: seq<Act>, i: nat, early: nat, late: nat)
    requires IsUtaExecution(ms, acts) && i < |acts| && DecidesAt(ms, acts, i)
    requires early < late < |Unserved(ms, acts, i)|
    requires Unserved(ms, acts, i)[late] == Chooses(ms, acts, i)
    ensures Brought(acts, i, Unserved(ms, acts, i)[late]) < Brought(acts, i, Unserved(ms, acts, i)[early])
  {
    var a := History(ms, acts, i);
    QueuesAreTheArrivalOrder(ms, acts, i);
    AlwaysSimulates(ms, acts, i);
    ExecutionsAreRuns(ms, acts);
    RunKeepsInv(Run(ms, acts), i);
    assert EnabledAt(ms, acts, i) && ChoosesAt(ms, acts, i);
    ChoicePassesLonger(ms[i], acts[i].0, acts[i].1, a, early, late);
    LensAreBrought(ms, acts, i, Unserved(ms, acts, i)[early]);
    LensAreBrought(ms, acts, i, Unserved(ms, acts, i)[late]);
  }

  // ----- Who is served -------------------------------------------------------------------

  /** seen[j] came with a section shorter than the threshold, and nobody before it did. */
  ghost predicate IsFirstShortIn(ms: seq<Memory>, acts: seq<Act>, i: nat, seen: seq<Tid>, j: nat)
    requires i <= |acts| < |ms|
  {
    && j < |seen| && Brought(acts, i, seen[j]) < ms[i].threshold
    && forall x :: 0 <= x < j ==> Brought(acts, i, seen[x]) >= ms[i].threshold
  }

  ghost predicate SeesShortIn(ms: seq<Memory>, acts: seq<Act>, i: nat, seen: seq<Tid>)
    requires i <= |acts| < |ms|
  {
    exists j :: 0 <= j < |seen| && Brought(acts, i, seen[j]) < ms[i].threshold
  }

  function StoredBatch(ms: seq<Memory>, acts: seq<Act>, i: nat): nat
    requires i < |acts| < |ms|
  {
    var pc := At(ms[i + 1], acts[i].0).pc;
    if pc.Granting? then BatchIn(pc.word) else 0
  }

  /** The choice of step i: the first short one seen, or the oldest, and the batch that goes with it. */
  ghost predicate Serves(ms: seq<Memory>, acts: seq<Act>, i: nat, seen: seq<Tid>, b: nat)
    requires AllEnabled(ms, acts) && i < |acts| && DecidesAt(ms, acts, i)
  {
    if b < 1000 && SeesShortIn(ms, acts, i, seen) then
      && StoredBatch(ms, acts, i) == b + 1
      && exists j: nat :: IsFirstShortIn(ms, acts, i, seen, j) && Chooses(ms, acts, i) == seen[j]
    else
      && StoredBatch(ms, acts, i) == 1
      && Unserved(ms, acts, i) != [] && Chooses(ms, acts, i) == Unserved(ms, acts, i)[0]
  }

  /** In every interleaving: whoever decides below the batch limit, its scan having come to a short
      thread, grants the first short one in its list, with the batch raised by one. In every other
      case it grants the oldest thread unserved, with batch one. */
  lemma GrantsFirstShort(ms: seq<Memory>, acts: seq<Act>, i: nat, fuel: nat)
    requires IsUtaExecution(ms, acts) && i < |acts| && DecidesAt(ms, acts, i) && fuel >= |Unserved(ms, acts, i)|
    ensures Serves(ms, acts, i, SeenBy(ms, acts, i, fuel), BatchIn(At(ms[i], acts[i].0).spin))
  {
    var a := History(ms, acts, i);
    StandsAt(ms, acts, i);
    DecidingLabel(ms[i], acts[i].0, acts[i].1);
    match acts[i].1
    case Cas => CasServes(ms, acts, i, a);
    case PickCur(_, _) => PickServes(ms, acts, i, a, fuel);
    case _ => FlushServes(ms, acts, i, a, fuel);
  }

  /** What is known before step i. */
  ghost predicate Stands(ms: seq<Memory>, acts: seq<Act>, i: nat, a: Abs) {
    && IsUtaExecution(ms, acts) && i < |acts| && Related(ms[i], a) && ScanPassedLong(ms[i], a)
    && EnabledAt(ms, acts, i) && ChoosesAt(ms, acts, i) && FineLockTheorems.StepAt(ms, acts, i)
    && Unserved(ms, acts, i) == Whos(WaitersOf(a))
  }

  lemma StandsAt(ms: seq<Memory>, acts: seq<Act>, i: nat)
    requires IsUtaExecution(ms, acts) && i < |acts|
    ensures Stands(ms, acts, i, History(ms, acts, i))
  {
    QueuesAreTheArrivalOrder(ms, acts, i);
    AlwaysSimulates(ms, acts, i);
  }

  lemma CasServes(ms: seq<Memory>, acts: seq<Act>, i: nat, a: Abs)
    requires Stands(ms, acts, i, a) && DecidesAt(ms, acts, i) && acts[i].1.Cas?
    ensures StoredBatch(ms, acts, i) == 1 && !At(ms[i], acts[i].0).pc.Scan? && !At(ms[i], acts[i].0).pc.Missed?
    ensures Unserved(ms, acts, i) != [] && Chooses(ms, acts, i) == Unserved(ms, acts, i)[0]
  {
    CasIsHandoff(ms[i], acts[i].0, a);
    var c := DecisionIsHandoff(ms[i], acts[i].0, Cas, a);
    assert ms[i + 1] == Do(ms[i], acts[i].0, Cas);
  }

  /** A pick stops at the first short node. */
  lemma {:induction false} PickGrants(m: Memory, t: Tid, l: Label, a: Abs) returns (k: nat)
    requires Related(m, a) && ScanPassedLong(m, a) && Enabled(m, t, l) && UtaChoice(m, t, l) && l.PickCur?
    ensures a.Held? && k < |a.q.main| && IndexOf(a.q.main, At(m, t).pc.cur) == k
    ensures a.q.main[k].len < m.threshold && forall i :: 0 <= i < k ==> a.q.main[i].len >= m.threshold
    ensures BatchIn(At(m, t).spin) < 1000
    ensures At(Do(m, t, l), t).pc.Granting? && At(Do(m, t, l), t).pc.to == a.q.main[k].who
    ensures BatchIn(At(Do(m, t, l), t).pc.word) == BatchIn(At(m, t).spin) + 1
  {
    k := ScanStands(m, t, a);
    LenIs(m, a, k);
    var c := PickIsHandoff(m, t, l, a);
    assert Effect(m, t, l, a) == HandOver(a, Pick(k), l.batch);
  }

  /** A flush happens at the limit, or when everybody seen is long. */
  lemma {:induction false} FlushGrants(m: Memory, t: Tid, l: Label, a: Abs) returns (k: nat)
    requires Related(m, a) && ScanPassedLong(m, a) && Enabled(m, t, l) && UtaChoice(m, t, l) && l.Flush?
    ensures a.Held? && k < |a.q.main| && IndexOf(a.q.main, At(m, t).pc.cur) == k
    ensures BatchIn(At(m, t).spin) < 1000 ==> forall i :: 0 <= i <= k ==> a.q.main[i].len >= m.threshold
    ensures At(Do(m, t, l), t).pc.Granting? && At(Do(m, t, l), t).pc.to == a.q.Order()[0].who
    ensures BatchIn(At(Do(m, t, l), t).pc.word) == 1
  {
    k := ScanStands(m, t, a);
    FlushIsHandoff(m, t, l.batch, l.threshold, a);
  }

  /** The lengths of the main queue are those its threads came with. */
  lemma MainIsBrought(ms: seq<Memory>, acts: seq<Act>, i: nat, a: Abs, x: nat)
    requires IsExecution(ms, acts) && i <= |acts| && Related(ms[i], a) && a.Held? && x < |a.q.main|
    ensures Brought(acts, i, a.q.main[x].who) == a.q.main[x].len
  {
    LensAreBrought(ms, acts, i, a.q.main[x].who);
    LenIs(ms[i], a, x);
  }

  lemma SeenIsBrought(ms: seq<Memory>, acts: seq<Act>, i: nat, a: Abs, seen: seq<Tid>)
    requires IsExecution(ms, acts) && i <= |acts| && Related(ms[i], a) && a.Held?
    requires |seen| <= |a.q.main| && seen == Whos(a.q.main[..|seen|])
    ensures forall x :: 0 <= x < |seen| ==> seen[x] == a.q.main[x].who && Brought(acts, i, seen[x]) == a.q.main[x].len
  {
    forall x | 0 <= x < |seen|
      ensures seen[x] == a.q.main[x].who && Brought(acts, i, seen[x]) == a.q.main[x].len
    {
      MainIsBrought(ms, acts, i, a, x);
    }
  }

  lemma PickServes(ms: seq<Memory>, acts: seq<Act>, i: nat, a: Abs, fuel: nat)
    requires Stands(ms, acts, i, a) && DecidesAt(ms, acts, i) && acts[i].1.PickCur? && fuel >= |WaitersOf(a)|
    ensures Serves(ms, acts, i, SeenBy(ms, acts, i, fuel), BatchIn(At(ms[i], acts[i].0).spin))
  {
    var (t, l) := acts[i];
    var k := PickGrants(ms[i], t, l, a);
    var n := SeenIs(ms[i], t, a, fuel);
    var seen := SeenBy(ms, acts, i, fuel);
    SeenIsBrought(ms, acts, i, a, seen);
    assert IsFirstShortIn(ms, acts, i, seen, k);
    assert Chooses(ms, acts, i) == seen[k];
  }

  lemma FlushServes(ms: seq<Memory>, acts: seq<Act>, i: nat, a: Abs, fuel: nat)
    requires Stands(ms, acts, i, a) && DecidesAt(ms, acts, i) && acts[i].1.Flush? && fuel >= |WaitersOf(a)|
    ensures Serves(ms, acts, i, SeenBy(ms, acts, i, fuel), BatchIn(At(ms[i], acts[i].0).spin))
  {
    var (t, l) := acts[i];
    var k := FlushGrants(ms[i], t, l, a);
    var n := SeenIs(ms[i], t, a, fuel);
    SeenIsBrought(ms, acts, i, a, SeenBy(ms, acts, i, fuel));
  }

  /** A scan ends without a pick only at the end of what is linked, having come to everybody there;
      so nobody there is short. */
  lemma MissSawEverybody(ms: seq<Memory>, acts: seq<Act>, i: nat, fuel: nat)
    requires IsUtaExecution(ms, acts) && i < |acts| && acts[i].1.EndScan? && fuel >= |Unserved(ms, acts, i)|
    ensures SeenBy(ms, acts, i, fuel) == Walk(ms[i], At(ms[i], acts[i].0).next, fuel)
    ensures !SeesShortIn(ms, acts, i, SeenBy(ms, acts, i, fuel))
  {
    var a := History(ms, acts, i);
    StandsAt(ms, acts, i);
    var k := EndGrants(ms[i], acts[i].0, acts[i].1, a, fuel);
    SeenIsBrought(ms, acts, i, a, SeenBy(ms, acts, i, fuel));
  }

  /** A scan that ends has come to the end of the walk, past long nodes only. */
  lemma {:induction false} EndGrants(m: Memory, t: Tid, l: Label, a: Abs, fuel: nat) returns (k: nat)
    requires Related(m, a) && ScanPassedLong(m, a) && Enabled(m, t, l) && UtaChoice(m, t, l) && l.EndScan?
    requires fuel >= |WaitersOf(a)|
    ensures a.Held? && k < |a.q.main| && forall i :: 0 <= i <= k ==> a.q.main[i].len >= m.threshold
    ensures Upto(m, At(m, t).next, At(m, t).pc.cur, fuel) == Whos(a.q.main[..k + 1]) == Walk(m, At(m, t).next, fuel)
  {
    k := ScanStands(m, t, a);
    LenIs(m, a, k);
    EndWalks(m, t, a, k, fuel);
  }

  lemma EndWalks(m: Memory, t: Tid, a: Abs, k: nat, fuel: nat)
    requires Related(m, a) && At(m, t).pc.Scan? && a.Held? && ScannedTo(m, a, k, At(m, t).pc.cur)
    requires At(m, At(m, t).pc.cur).next.None? && fuel >= |WaitersOf(a)|
    ensures Upto(m, At(m, t).next, At(m, t).pc.cur, fuel) == Whos(a.q.main[..k + 1]) == Walk(m, At(m, t).next, fuel)
  {
    IndexIs(a, k);
    var n := SeenIs(m, t, a, fuel);
    var w := WalksIn(m, a, t, fuel);
    EndsHere(m, a, k, w);
  }

  /** The walk and the scan end at the same node. */
  lemma EndsHere(m: Memory, a: Abs, k: nat, w: nat)
    requires Related(m, a) && a.Held? && k < |a.q.main| && w <= |a.q.main|
    requires (w < |a.q.main| ==> PendingAt(m, a, w)) && forall x :: 0 <= x <= k ==> LinkedAt(m, a, x)
    requires At(m, a.q.main[k].who).next.None?
    requires forall x :: 0 <= x < w ==> LinkedAt(m, a, x)
    ensures w == k + 1
  {
    assert w <= k ==> LinkedAt(m, a, w);
    assert Before(a, k + 1) == a.q.main[k].who;
    assert w > k + 1 ==> LinkedAt(m, a, k + 1);
  }

  // ----- The threshold in memory ---------------------------------------------------------

  /** A flush by a thread whose scan came to the end without picking. */
  predicate FlushesAfterMiss(ms: seq<Memory>, acts: seq<Act>, i: nat)
    requires i < |acts| && |ms| == |acts| + 1
  {
    acts[i].1.Flush? && At(ms[i], acts[i].0).pc.Missed?
  }

  /** A pick that takes the batch in the grant word past a multiple of 100. */
  predicate PicksAtHundred(ms: seq<Memory>, acts: seq<Act>, i: nat)
    requires i < |acts| && |ms| == |acts| + 1
  {
    acts[i].1.PickCur? && BatchIn(At(ms[i], acts[i].0).spin) % 100 == 99
  }

  function MissesIn(ms: seq<Memory>, acts: seq<Act>, n: nat): nat
    requires n <= |acts| && |ms| == |acts| + 1
  {
    if n == 0 then 0 else MissesIn(ms, acts, n - 1) + (if FlushesAfterMiss(ms, acts, n - 1) then 1 else 0)
  }

  function HundredthPicksIn(ms: seq<Memory>, acts: seq<Act>, n: nat): nat
    requires n <= |acts| && |ms| == |acts| + 1
  {
    if n == 0 then 0 else HundredthPicksIn(ms, acts, n - 1) + (if PicksAtHundred(ms, acts, n - 1) then 1 else 0)
  }

  /** Only those two kinds of step store the threshold with another value. */
  lemma StoredThreshold(m: Memory, t: Tid, l: Label)
    requires Enabled(m, t, l) && UtaChoice(m, t, l)
    ensures Do(m, t, l).threshold > m.threshold <==> l.Flush? && At(m, t).pc.Missed?
    ensures Do(m, t, l).threshold < m.threshold <==> l.PickCur? && BatchIn(At(m, t).spin) % 100 == 99
  {
  }

  /** The labels of the machine are the events of the abstract lock. */
  lemma LabelsAreEvents(ms: seq<Memory>, acts: seq<Act>, i: nat)
    requires IsUtaExecution(ms, acts) && i < |acts|
    ensures IsMiss(Run(ms, acts)[i], Events(ms, acts)[i]) <==> FlushesAfterMiss(ms, acts, i)
    ensures IsHundredthPick(Run(ms, acts)[i], Events(ms, acts)[i]) <==> PicksAtHundred(ms, acts, i)
  {
    var run, evs := Run(ms, acts), Events(ms, acts);
    ExecutionsAreRuns(ms, acts);
    assert DoesAt(run, evs, i);
    EventMovesThreshold(run[i], evs[i], run[i + 1]);
    assert EnabledAt(ms, acts, i) && ChoosesAt(ms, acts, i) && FineLockTheorems.StepAt(ms, acts, i);
    StoredThreshold(ms[i], acts[i].0, acts[i].1);
  }

  /** Counting labels is counting events. */
  lemma {:induction false} CountsGrow<T>(run: seq<State<T>>, evs: seq<Event<T>>, n: nat)
    requires |run| == |evs| + 1 && 0 < n <= |evs|
    ensures Misses(run[..n + 1], evs[..n])
            == Misses(run[..n], evs[..n - 1]) + (if IsMiss(run[n - 1], evs[n - 1]) then 1 else 0)
    ensures Drops(run[..n + 1], evs[..n])
            == Drops(run[..n], evs[..n - 1]) + (if IsHundredthPick(run[n - 1], evs[n - 1]) then 1 else 0)
  {
    assert run[..n + 1][..n] == run[..n] && evs[..n][..n - 1] == evs[..n - 1];
  }

  lemma {:induction false} LabelCounts(ms: seq<Memory>, acts: seq<Act>, n: nat)
    requires IsUtaExecution(ms, acts) && n <= |acts|
    ensures Misses(Run(ms, acts)[..n + 1], Events(ms, acts)[..n]) == MissesIn(ms, acts, n)
    ensures Drops(Run(ms, acts)[..n + 1], Events(ms, acts)[..n]) == HundredthPicksIn(ms, acts, n)
  {
    if n > 0 {
      var run, evs := Run(ms, acts), Events(ms, acts);
      LabelCounts(ms, acts, n - 1);
      LabelsAreEvents(ms, acts, n - 1);
      CountsGrow(run, evs, n);
    }
  }

  /** The threshold in memory, in every interleaving: one more for every flush after a miss, one
      less for every hundredth pick, and each of those costs a hundred decisions. */
  lemma ThresholdInMemory(ms: seq<Memory>, acts: seq<Act>)
    requires IsUtaExecution(ms, acts)
    ensures ms[|acts|].threshold
            == 10000 + MissesIn(ms, acts, |acts|) - HundredthPicksIn(ms, acts, |acts|)
    ensures 100 * HundredthPicksIn(ms, acts, |acts|) <= Decisions(ms, acts, 0, |acts|)
    ensures Decisions(ms, acts, 0, |acts|) <= 0x8000_0000 - 10001 ==>
      -0x8000_0000 <= ms[|acts|].threshold < 0x8000_0000
  {
    ExecutionsAreRuns(ms, acts);
    ThresholdLedger(Run(ms, acts), Events(ms, acts));
    AllLabelsCount(ms, acts);
    HandoffsOfAll(ms, acts);
  }

  lemma AllLabelsCount(ms: seq<Memory>, acts: seq<Act>)
    requires IsUtaExecution(ms, acts)
    ensures Misses(Run(ms, acts), Events(ms, acts)) == MissesIn(ms, acts, |acts|)
    ensures Drops(Run(ms, acts), Events(ms, acts)) == HundredthPicksIn(ms, acts, |acts|)
  {
    var run, evs := Run(ms, acts), Events(ms, acts);
    LabelCounts(ms, acts, |acts|);
    assert run[..|acts| + 1] == run && evs[..|acts|] == evs;
  }

  lemma HandoffsOfAll(ms: seq<Memory>, acts: seq<Act>)
    requires IsUtaExecution(ms, acts)
    ensures Handoffs(Locks(Run(ms, acts))) == Decisions(ms, acts, 0, |acts|)
  {
    DecisionsAreHandoffs(ms, acts, 0, |acts|);
    HandoffsInSlice(Locks(Run(ms, acts)), 0, |acts|);
    assert Locks(Run(ms, acts))[0..|acts| + 1] == Locks(Run(ms, acts));
  }
}
