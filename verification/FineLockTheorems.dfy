/** What every interleaving of FineLock promises, stated on the memory alone. */
module FineLockTheorems {
  import opened TwoQueue
  import opened Uta
  import opened FineLock
  import opened FineLockProof

  type Act = (Tid, Label)

  predicate StepAt(ms: seq<Memory>, acts: seq<Act>, i: nat)
    requires AllEnabled(ms, acts) && i < |acts|
  {
    assert EnabledAt(ms, acts, i);
    ms[i + 1] == Do(ms[i], acts[i].0, acts[i].1)
  }

  ghost predicate IsExecution(ms: seq<Memory>, acts: seq<Act>) {
    && AllEnabled(ms, acts)
    && ms[0] == Start()
    && forall i: nat :: i < |acts| ==> StepAt(ms, acts, i)
  }

  predicate AllEnabled(ms: seq<Memory>, acts: seq<Act>) {
    && |ms| == |acts| + 1
    && forall i: nat :: i < |acts| ==> EnabledAt(ms, acts, i)
  }

  predicate EnabledAt(ms: seq<Memory>, acts: seq<Act>, i: nat)
    requires i < |acts| && |ms| == |acts| + 1
  {
    Enabled(ms[i], acts[i].0, acts[i].1)
  }

  /** The queue state after the first n steps. */
  ghost function History(ms: seq<Memory>, acts: seq<Act>, n: nat): Abs
    requires AllEnabled(ms, acts) && n <= |acts|
  {
    if n == 0 then Free
    else
      assert EnabledAt(ms, acts, n - 1);
      Effect(ms[n - 1], acts[n - 1].0, acts[n - 1].1, History(ms, acts, n - 1))
  }

  lemma {:induction false} AlwaysRelated(ms: seq<Memory>, acts: seq<Act>, i: nat)
    requires IsExecution(ms, acts) && i < |ms|
    ensures Related(ms[i], History(ms, acts, i))
  {
    if i > 0 {
      AlwaysRelated(ms, acts, i - 1);
      assert EnabledAt(ms, acts, i - 1);
      StepKeeps(ms[i - 1], acts[i - 1].0, acts[i - 1].1, History(ms, acts, i - 1));
      assert StepAt(ms, acts, i - 1);
    }
  }

  // ----- Mutual exclusion --------------------------------------------------------------

  /** A thread owns the token while inside, while releasing, while its grant to another thread
      is in flight, and once it has been granted but has not looked yet. */
  predicate HasToken(m: Memory, t: Tid) {
    var n := At(m, t);
    Releasing(n.pc) || n.pc.Granting? || (n.pc.Waiting? && n.spin.Grant?)
  }

  predicate Queued(m: Memory, t: Tid) { !At(m, t).pc.Idle? && !At(m, t).pc.Entering? }

  lemma OneTokenIn(m: Memory, a: Abs)
    requires Related(m, a)
    ensures m.tail.None? <==> forall t :: !Queued(m, t)
    ensures m.tail.Some? ==> exists t :: HasToken(m, t)
    ensures forall t, u :: HasToken(m, t) && HasToken(m, u) ==> t == u
  {
    if a.Free? {
      assert forall t :: !Member(a, t);
    } else {
      assert Queued(m, a.owner.who);
      if Releasing(At(m, a.owner.who).pc) || At(m, a.owner.who).spin.Grant? {
        assert HasToken(m, a.owner.who);
      } else {
        var g :| At(m, g).pc.Granting?;
        assert HasToken(m, g);
      }
      forall t | HasToken(m, t) ensures t == a.owner.who || At(m, t).pc.Granting? {
        if !At(m, t).pc.Granting? && t != a.owner.who { WaitersWait(m, a, t); }
      }
    }
  }

  /** In every reachable state the lock is free exactly when nobody holds or queues, and
      otherwise exactly one thread owns the token; so at most one thread is inside. */
  lemma ExactlyOneToken(ms: seq<Memory>, acts: seq<Act>, i: nat)
    requires IsExecution(ms, acts) && i < |ms|
    ensures ms[i].tail.None? <==> forall t :: !Queued(ms[i], t)
    ensures ms[i].tail.Some? ==> exists t :: HasToken(ms[i], t)
    ensures forall t, u :: HasToken(ms[i], t) && HasToken(ms[i], u) ==> t == u
    ensures forall t, u :: At(ms[i], t).pc.Holding? && At(ms[i], u).pc.Holding? ==> t == u
  {
    AlwaysRelated(ms, acts, i);
    OneTokenIn(ms[i], History(ms, acts, i));
    forall t, u | At(ms[i], t).pc.Holding? && At(ms[i], u).pc.Holding? ensures t == u {
      assert HasToken(ms[i], t) && HasToken(ms[i], u);
    }
  }

  // ----- One arrival-ordered sequence --------------------------------------------------

  function Whos(ws: seq<Waiter<Tid>>): (ts: seq<Tid>)
    ensures |ts| == |ws| && forall i :: 0 <= i < |ws| ==> ts[i] == ws[i].who
  {
    seq(|ws|, i requires 0 <= i < |ws| => ws[i].who)
  }

  function Remove(ts: seq<Tid>, t: Tid): seq<Tid> {
    if ts == [] then [] else if ts[0] == t then ts[1..] else [ts[0]] + Remove(ts[1..], t)
  }

  /** The step by which a thread commits to a grantee: it starts to owe that thread a store. */
  predicate Decides(m: Memory, t: Tid, l: Label)
    requires Enabled(m, t, l)
  {
    !At(m, t).pc.Granting? && At(Do(m, t, l), t).pc.Granting?
  }

  predicate DecidesAt(ms: seq<Memory>, acts: seq<Act>, i: nat)
    requires AllEnabled(ms, acts) && i < |acts|
  {
    assert EnabledAt(ms, acts, i);
    Decides(ms[i], acts[i].0, acts[i].1)
  }

  lemma DecidingLabel(m: Memory, t: Tid, l: Label)
    requires Enabled(m, t, l)
    ensures l.Cas? || l.PickCur? || l.PickBest? || l.Flush? || !Decides(m, t, l)
  {
  }

  /** A swap or a flush that decides is for the oldest. */
  lemma GrantsOldest(m: Memory, t: Tid, l: Label, a: Abs)
    requires Related(m, a) && Enabled(m, t, l) && Decides(m, t, l) && (l.Flush? || l.Cas?)
    ensures a.Held? && a.q.Order() != [] && At(Do(m, t, l), t).pc.to == a.q.Order()[0].who
  {
    if l.Flush? {
      FlushIsHandoff(m, t, l.batch, l.threshold, a);
    } else {
      CasIsHandoff(m, t, a);
    }
  }

  /** The thread chosen by a step that decides. */
  function Chooses(ms: seq<Memory>, acts: seq<Act>, i: nat): Tid
    requires AllEnabled(ms, acts) && i < |acts| && DecidesAt(ms, acts, i)
  {
    assert EnabledAt(ms, acts, i);
    At(Do(ms[i], acts[i].0, acts[i].1), acts[i].0).pc.to
  }

  /** The specification: whoever exchanges a non-empty tail joins at the end, whoever is chosen
      leaves, and nothing else ever changes the sequence. */
  function Unserved(ms: seq<Memory>, acts: seq<Act>, n: nat): seq<Tid>
    requires AllEnabled(ms, acts) && n <= |acts|
  {
    if n == 0 then []
    else
      var before := Unserved(ms, acts, n - 1);
      var (t, l) := acts[n - 1];
      if l.Exchange? && ms[n - 1].tail.Some? then before + [t]
      else if DecidesAt(ms, acts, n - 1) then Remove(before, Chooses(ms, acts, n - 1))
      else before
  }

  function WaitersOf(a: Abs): seq<Waiter<Tid>> { if a.Free? then [] else a.q.Order() }

  lemma {:induction false} RemoveIsWithout(ts: seq<Tid>, r: nat)
    requires r < |ts| && forall i, j :: 0 <= i < j < |ts| ==> ts[i] != ts[j]
    ensures Remove(ts, ts[r]) == Without(ts, r)
  {
    if r > 0 {
      assert ts[0] != ts[r];
      forall i, j | 0 <= i < j < |ts| - 1 ensures ts[1..][i] != ts[1..][j] {}
      RemoveIsWithout(ts[1..], r - 1);
    }
  }

  /** A decision is exactly a handoff, and the choice says how many older waiters are passed. */
  lemma {:induction false} DecisionIsHandoff(m: Memory, t: Tid, l: Label, a: Abs) returns (c: Choice)
    requires Related(m, a) && Enabled(m, t, l)
    ensures var m', a' := Do(m, t, l), Effect(m, t, l, a);
            if Decides(m, t, l) then
              && a.Held? && t == a.owner.who && Allowed(a.q, c)
              && a' == HandOver(a, c, BatchIn(At(m', t).pc.word))
              && At(m', t).pc.to == a'.owner.who && a'.owner != a.owner
            else if l.Exchange? then
              WaitersOf(a') == if a.Held? then WaitersOf(a) + [Waiter(t, At(m, t).len)] else []
            else a' == a || (l.Cas? && a.Held? && WaitersOf(a) == [] && a'.Free?)
  {
    c := Oldest;
    match l
    case PickCur(b, thr) => c := PickIsHandoff(m, t, l, a);
    case PickBest(b, thr) => c := PickIsHandoff(m, t, l, a);
    case Flush(b, thr) => FlushIsHandoff(m, t, b, thr, a);
    case Cas => CasIsHandoff(m, t, a);
    case _ =>
  }

  lemma {:induction false} PickIsHandoff(m: Memory, t: Tid, l: Label, a: Abs) returns (c: Choice)
    requires Related(m, a) && Enabled(m, t, l) && (l.PickCur? || l.PickBest?)
    ensures Decides(m, t, l) && a.Held? && t == a.owner.who && Allowed(a.q, c) && c.Pick?
    ensures Effect(m, t, l, a) == HandOver(a, c, l.batch)
    ensures At(Do(m, t, l), t).pc == Granting(Effect(m, t, l, a).owner.who, At(Do(m, t, l), t).pc.word)
    ensures BatchIn(At(Do(m, t, l), t).pc.word) == l.batch
    ensures Effect(m, t, l, a).owner != a.owner
  {
    var k := ScanStands(m, t, a);
    if l.PickBest? {
      var best := At(m, t).pc.best;
      var j: nat :| 0 < j <= k && j < |a.q.main| && best.value == (a.q.main[j].who, Before(a, j));
      IndexIs(a, j);
      k := j;
    }
    c := Pick(k);
    HandOverMembers(a, c, l.batch);
  }

  lemma FlushIsHandoff(m: Memory, t: Tid, b: nat, thr: int, a: Abs)
    requires Related(m, a) && Enabled(m, t, Flush(b, thr))
    ensures Decides(m, t, Flush(b, thr)) && a.Held? && t == a.owner.who && Allowed(a.q, Oldest)
    ensures Effect(m, t, Flush(b, thr), a) == HandOver(a, Oldest, b)
    ensures At(Do(m, t, Flush(b, thr)), t).pc == Granting(HandOver(a, Oldest, b).owner.who, Grant(b, None))
    ensures HandOver(a, Oldest, b).owner != a.owner
  {
    var k := ScanStands(m, t, a);
    HandOverMembers(a, Oldest, b);
  }

  lemma CasIsHandoff(m: Memory, t: Tid, a: Abs)
    requires Related(m, a) && Enabled(m, t, Cas)
    ensures if Decides(m, t, Cas) then
              && a.Held? && t == a.owner.who && Allowed(a.q, Oldest)
              && Effect(m, t, Cas, a) == HandOver(a, Oldest, 1)
              && At(Do(m, t, Cas), t).pc == Granting(HandOver(a, Oldest, 1).owner.who, Grant(1, None))
              && HandOver(a, Oldest, 1).owner != a.owner
            else Effect(m, t, Cas, a) == a
                 || (a.Held? && WaitersOf(a) == [] && Effect(m, t, Cas, a).Free?)
  {
    if m.tail == Some(t) {
      DrainKeeps(m, t, a);
      ReleaserOwns(m, a, t);
      if a.q.sec != [] { HandOverMembers(a, Oldest, 1); }
    }
  }

  lemma WhosWithout(ws: seq<Waiter<Tid>>, r: nat)
    requires r < |ws|
    ensures Whos(Without(ws, r)) == Without(Whos(ws), r)
  {
  }

  lemma HandOverRemoves(a: Abs, c: Choice, b: nat)
    requires a.Held? && DistinctIds(All(a)) && Allowed(a.q, c)
    ensures var a' := HandOver(a, c, b);
            Whos(a'.q.Order()) == Remove(Whos(a.q.Order()), a'.owner.who)
  {
    var ts, r := Whos(a.q.Order()), Rank(a.q, c);
    HandoffRemovesOne(a.q, c);
    forall i, j | 0 <= i < j < |ts| ensures ts[i] != ts[j] {
      assert All(a)[i + 1].who != All(a)[j + 1].who;
    }
    RemoveIsWithout(ts, r);
    WhosWithout(a.q.Order(), r);
  }

  lemma DecisionsRemoveOne(m: Memory, t: Tid, l: Label, a: Abs)
    requires Related(m, a) && Enabled(m, t, l)
    ensures var before, after := Whos(WaitersOf(a)), Whos(WaitersOf(Effect(m, t, l, a)));
            after == (if l.Exchange? && m.tail.Some? then before + [t]
                      else if Decides(m, t, l) then Remove(before, At(Do(m, t, l), t).pc.to)
                      else before)
  {
    var c := DecisionIsHandoff(m, t, l, a);
    if Decides(m, t, l) {
      HandOverRemoves(a, c, BatchIn(At(Do(m, t, l), t).pc.word));
    }
  }

  /** The pointer protocol implements one arrival-ordered sequence: in every reachable state
      the secondary queue followed by the main queue lists the unserved waiters in the order in
      which they exchanged the tail, whatever the release paths chose. */
  lemma {:induction false} QueuesAreTheArrivalOrder(ms: seq<Memory>, acts: seq<Act>, n: nat)
    requires IsExecution(ms, acts) && n <= |acts|
    ensures Whos(WaitersOf(History(ms, acts, n))) == Unserved(ms, acts, n)
  {
    if n > 0 {
      QueuesAreTheArrivalOrder(ms, acts, n - 1);
      AlwaysRelated(ms, acts, n - 1);
      assert EnabledAt(ms, acts, n - 1);
      DecisionsRemoveOne(ms[n - 1], acts[n - 1].0, acts[n - 1].1, History(ms, acts, n - 1));
    }
  }

  // ----- The lists in memory -----------------------------------------------------------

  /** Follows next, for at most `fuel` nodes. */
  function Walk(m: Memory, start: Option<Tid>, fuel: nat): seq<Tid>
    decreases fuel
  {
    if fuel == 0 || start.None? then [] else [start.value] + Walk(m, At(m, start.value).next, fuel - 1)
  }

  lemma WhosFirst(ws: seq<Waiter<Tid>>)
    requires ws != []
    ensures Whos(ws) == [ws[0].who] + Whos(ws[1..])
  {
  }

  lemma {:induction false} WalkSec(m: Memory, a: Abs, i: nat, fuel: nat)
    requires a.Held? && SecShape(m, a) && i < |a.q.sec| <= i + fuel
    ensures Walk(m, Some(a.q.sec[i].who), fuel) == Whos(a.q.sec[i..])
    decreases fuel
  {
    assert SecNode(m, a, i);
    if i + 1 < |a.q.sec| {
      WalkSec(m, a, i + 1, fuel - 1);
    }
    WhosFirst(a.q.sec[i..]);
    assert a.q.sec[i..][1..] == a.q.sec[i + 1..];
  }

  /** The walk along the main queue ends at its end or at the first pending link. */
  lemma {:induction false} WalkMain(m: Memory, a: Abs, i: nat, fuel: nat) returns (k: nat)
    requires a.Held? && MainShape(m, a) && i <= |a.q.main| <= i + fuel
    ensures i <= k <= |a.q.main| && (k < |a.q.main| ==> PendingAt(m, a, k))
    ensures forall x :: i <= x < k ==> LinkedAt(m, a, x)
    ensures Walk(m, At(m, Before(a, i)).next, fuel) == Whos(a.q.main[i..k])
    decreases fuel
  {
    k := i;
    if i < |a.q.main| {
      assert MainNode(m, a, i);
      if LinkedAt(m, a, i) {
        assert Before(a, i + 1) == a.q.main[i].who;
        k := WalkMain(m, a, i + 1, fuel - 1);
        assert Whos(a.q.main[i..k]) == [a.q.main[i].who] + Whos(a.q.main[i + 1..k]);
      }
    }
  }

  lemma {:induction false} WalksIn(m: Memory, a: Abs, t: Tid, fuel: nat) returns (k: nat)
    requires Related(m, a) && Releasing(At(m, t).pc) && fuel >= |WaitersOf(a)|
    ensures a.Held? && k <= |a.q.main| && (k < |a.q.main| ==> PendingAt(m, a, k))
    ensures forall x :: 0 <= x < k ==> LinkedAt(m, a, x)
    ensures Walk(m, HeadIn(At(m, t).spin), fuel) == Whos(a.q.sec)
    ensures Walk(m, At(m, t).next, fuel) == Whos(a.q.main[..k])
    ensures a.q.sec != [] ==>
      At(m, a.q.sec[0].who).secTail == Some(a.q.sec[|a.q.sec| - 1].who)
  {
    ReleaserOwns(m, a, t);
    if a.q.sec != [] { WalkSec(m, a, 0, fuel); }
    k := WalkMain(m, a, 0, fuel);
  }

  lemma {:induction false} IdsAreDistinct(a: Abs)
    requires a.Held? && DistinctIds(All(a))
    ensures var order := Whos(WaitersOf(a));
            (forall i, j :: 0 <= i < j < |order| ==> order[i] != order[j]) && a.owner.who !in order
  {
    var order := Whos(WaitersOf(a));
    forall i | 0 <= i < |order| ensures order[i] != a.owner.who {
      assert All(a)[0].who != All(a)[i + 1].who;
    }
    forall i, j | 0 <= i < j < |order| ensures order[i] != order[j] {
      assert All(a)[i + 1].who != All(a)[j + 1].who;
    }
  }

  lemma OrderIsDistinct(m: Memory, a: Abs, t: Tid)
    requires Related(m, a) && Releasing(At(m, t).pc)
    ensures var order := Whos(WaitersOf(a));
            (forall i, j :: 0 <= i < j < |order| ==> order[i] != order[j]) && t !in order
  {
    ReleaserOwns(m, a, t);
    IdsAreDistinct(a);
  }

  /** What a releaser finds in memory: the list behind its grant word, then the list behind its
      own next, are the unserved waiters in arrival order, none lost or repeated, both lists end
      in NULL, and what is missing at the end begins with a thread that has yet to link. */
  lemma ListsAreTheArrivalOrder(ms: seq<Memory>, acts: seq<Act>, n: nat, t: Tid, fuel: nat)
    requires IsExecution(ms, acts) && n <= |acts| && Releasing(At(ms[n], t).pc)
    requires fuel >= |Unserved(ms, acts, n)|
    ensures var m, order := ms[n], Unserved(ms, acts, n);
            var sec, main := Walk(m, HeadIn(At(m, t).spin), fuel), Walk(m, At(m, t).next, fuel);
            && sec + main <= order
            && (|sec + main| < |order| ==> At(m, order[|sec + main|]).pc.Linking?)
            && (forall i, j :: 0 <= i < j < |order| ==> order[i] != order[j])
            && t !in order
            && (sec != [] ==> At(m, sec[0]).secTail == Some(sec[|sec| - 1]))
  {
    var m, a := ms[n], History(ms, acts, n);
    AlwaysRelated(ms, acts, n);
    QueuesAreTheArrivalOrder(ms, acts, n);
    OrderIsDistinct(m, a, t);
    var k := WalksIn(m, a, t, fuel);
    OrderSplits(a, k);
  }

  lemma OrderSplits(a: Abs, k: nat)
    requires a.Held? && k <= |a.q.main|
    ensures var order, lists := Whos(a.q.Order()), Whos(a.q.sec) + Whos(a.q.main[..k]);
            lists <= order && (k < |a.q.main| ==> |lists| < |order| && order[|lists|] == a.q.main[k].who)
            && (k == |a.q.main| ==> |lists| == |order|)
  {
  }

  // ----- What a thread brings ------------------------------------------------------------

  /** The length thread t last queued with, by the steps alone. */
  function Brought(acts: seq<Act>, n: nat, t: Tid): int
    requires n <= |acts|
  {
    if n == 0 then 0
    else if acts[n - 1].0 == t && acts[n - 1].1.Enter? then acts[n - 1].1.len
    else Brought(acts, n - 1, t)
  }

  lemma LenStays(m: Memory, t: Tid, l: Label, u: Tid)
    requires Enabled(m, t, l)
    ensures At(Do(m, t, l), u).len == if u == t && l.Enter? then l.len else At(m, u).len
  {
    if l.PickCur? || l.PickBest? {
      SpliceKeepsLen(m, t, if l.PickCur? then At(m, t).pc.last else At(m, t).pc.best.value.1, u);
    }
  }

  lemma SpliceKeepsLen(m: Memory, t: Tid, last: Tid, u: Tid)
    ensures At(Splice(m, t, last), u).len == At(m, u).len
  {
  }

  /** The length in a node is the one its thread brought, until it comes again. */
  lemma {:induction false} LensAreBrought(ms: seq<Memory>, acts: seq<Act>, n: nat, t: Tid)
    requires IsExecution(ms, acts) && n <= |acts|
    ensures At(ms[n], t).len == Brought(acts, n, t)
  {
    if n > 0 {
      LensAreBrought(ms, acts, n - 1, t);
      assert StepAt(ms, acts, n - 1) && EnabledAt(ms, acts, n - 1);
      LenStays(ms[n - 1], acts[n - 1].0, acts[n - 1].1, t);
    }
  }

  // ----- What a scan has seen --------------------------------------------------------------

  /** The nodes from `start` up to `last`, as far as next leads. */
  function Upto(m: Memory, start: Option<Tid>, last: Tid, fuel: nat): seq<Tid>
    decreases fuel
  {
    if fuel == 0 || start.None? then []
    else if start.value == last then [last]
    else [start.value] + Upto(m, At(m, start.value).next, last, fuel - 1)
  }

  lemma {:induction false} UptoMain(m: Memory, a: Abs, i: nat, k: nat, fuel: nat)
    requires a.Held? && i <= k < |a.q.main| && k < i + fuel && DistinctIds(All(a))
    requires forall x :: 0 <= x <= k ==> LinkedAt(m, a, x)
    ensures Upto(m, At(m, Before(a, i)).next, a.q.main[k].who, fuel) == Whos(a.q.main[i..k + 1])
    decreases fuel
  {
    assert LinkedAt(m, a, i);
    WhosFirst(a.q.main[i..k + 1]);
    assert a.q.main[i..k + 1][1..] == a.q.main[i + 1..k + 1];
    if i < k {
      assert All(a)[1 + |a.q.sec| + i] == a.q.main[i] && All(a)[1 + |a.q.sec| + k] == a.q.main[k];
      assert Before(a, i + 1) == a.q.main[i].who;
      UptoMain(m, a, i + 1, k, fuel - 1);
    }
  }

  /** What a scan has seen: the main queue up to main[k], all of it linked. */
  lemma {:induction false} SeenIs(m: Memory, t: Tid, a: Abs, fuel: nat) returns (k: nat)
    requires Related(m, a) && (At(m, t).pc.Scan? || At(m, t).pc.Missed?) && fuel >= |WaitersOf(a)|
    ensures a.Held? && t == a.owner.who && k < |a.q.main| && IndexOf(a.q.main, At(m, t).pc.cur) == k
    ensures Upto(m, At(m, t).next, At(m, t).pc.cur, fuel) == Whos(a.q.main[..k + 1])
  {
    k := ScanStands(m, t, a);
    UptoMain(m, a, 0, k, fuel);
    assert a.q.main[0..k + 1] == a.q.main[..k + 1];
  }

  /** What the deciding thread of step i has seen of its list. */
  function SeenBy(ms: seq<Memory>, acts: seq<Act>, i: nat, fuel: nat): seq<Tid>
    requires i < |acts| < |ms|
  {
    var (t, _) := acts[i];
    if At(ms[i], t).pc.Scan? || At(ms[i], t).pc.Missed? then Upto(ms[i], At(ms[i], t).next, At(ms[i], t).pc.cur, fuel)
    else []
  }

  // ----- Calls -----------------------------------------------------------------------------

  /** In lock, without having it. */
  predicate InLock(m: Memory, t: Tid) {
    At(m, t).pc.Entering? || At(m, t).pc.Linking? || At(m, t).pc.Waiting?
  }

  lemma StaysInLock(m: Memory, u: Tid, l: Label, t: Tid)
    requires Enabled(m, u, l) && InLock(m, t)
    ensures InLock(Do(m, u, l), t) || At(Do(m, u, l), t).pc.Holding?
  {
    if l.PickCur? || l.PickBest? {
      SpliceKeepsPc(m, u, if l.PickCur? then At(m, u).pc.last else At(m, u).pc.best.value.1, t);
    }
  }

  lemma SpliceKeepsPc(m: Memory, t: Tid, last: Tid, u: Tid)
    ensures At(Splice(m, t, last), u).pc == At(m, u).pc
  {
  }

  /** A call of lock returns only with the lock. */
  lemma {:induction false} LockReturnsInside(ms: seq<Memory>, acts: seq<Act>, i: nat, j: nat, t: Tid)
    requires IsExecution(ms, acts) && i < j <= |acts| && acts[i].0 == t && acts[i].1.Enter?
    requires forall k: nat :: i < k <= j ==> !At(ms[k], t).pc.Holding?
    ensures InLock(ms[j], t)
  {
    assert StepAt(ms, acts, j - 1) && EnabledAt(ms, acts, j - 1);
    if i + 1 < j {
      LockReturnsInside(ms, acts, i, j - 1, t);
      StaysInLock(ms[j - 1], acts[j - 1].0, acts[j - 1].1, t);
      assert !At(ms[j], t).pc.Holding?;
    }
  }

  /** Without anybody queued or inside it is got at once; and a waiting thread gets it exactly when it
      looks after it was granted. */
  lemma EntersIff(ms: seq<Memory>, acts: seq<Act>, i: nat)
    requires IsExecution(ms, acts) && i < |acts|
    ensures acts[i].1.Exchange? ==> (At(ms[i + 1], acts[i].0).pc.Holding? <==> ms[i].tail.None?)
    ensures acts[i].1.Exchange? ==> ms[i + 1].tail == Some(acts[i].0)
    ensures acts[i].1.Observe? ==> At(ms[i], acts[i].0).spin.Grant? && At(ms[i + 1], acts[i].0).pc.Holding?
  {
    assert StepAt(ms, acts, i) && EnabledAt(ms, acts, i);
  }
}
