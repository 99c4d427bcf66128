/** No interleaving of uta.c gets stuck: a decision is never more than a few steps away. */
module FineLockProgress {
  import opened TwoQueue
  import opened Uta
  import opened FineLock
  import opened FineLockProof
  import opened FineLockTheorems

  /** A step of a thread that is queued, or owes a grant; nobody arrives. */
  predicate Helps(l: Label) {
    !l.Enter? && !l.Exchange?
  }

  /** The lock is handed on, or becomes free. */
  predicate Finishes(m: Memory, t: Tid, l: Label)
    requires Enabled(m, t, l)
  {
    Decides(m, t, l) || (l.Cas? && m.tail == Some(t))
  }

  /** At most k such steps of uta.c, well chosen, come to a decision. */
  ghost predicate CanDecide(m: Memory, k: nat)
    decreases k, 1
  {
    exists t, l :: CanDecideBy(m, t, l, k)
  }

  ghost predicate CanDecideBy(m: Memory, t: Tid, l: Label, k: nat)
    decreases k, 0
  {
    && k > 0 && Helps(l) && Enabled(m, t, l) && UtaChoice(m, t, l)
    && (Finishes(m, t, l) || CanDecide(Do(m, t, l), k - 1))
  }

  lemma TakesStep(m: Memory, t: Tid, l: Label, k: nat)
    requires Helps(l) && Enabled(m, t, l) && UtaChoice(m, t, l) && k > 0
    requires Finishes(m, t, l) || CanDecide(Do(m, t, l), k - 1)
    ensures CanDecide(m, k)
  {
    assert CanDecideBy(m, t, l, k);
  }

  /** A step that does not finish leaves the queue as it is. */
  lemma StepKeepsQueue(m: Memory, t: Tid, l: Label, a: Abs)
    requires Related(m, a) && Enabled(m, t, l) && Helps(l) && !Finishes(m, t, l)
    ensures Related(Do(m, t, l), a)
  {
    StepKeeps(m, t, l, a);
    var c := DecisionIsHandoff(m, t, l, a);
  }

  /** The memory after such a step; a decision it is close to is close before the step too. */
  lemma {:induction false} Takes(m: Memory, t: Tid, l: Label, a: Abs, k: nat) returns (m': Memory)
    requires Related(m, a) && Helps(l) && Enabled(m, t, l) && UtaChoice(m, t, l) && !Finishes(m, t, l) && k > 0
    ensures m' == Do(m, t, l) && Related(m', a) && (CanDecide(m', k - 1) ==> CanDecide(m, k))
  {
    m' := Do(m, t, l);
    StepKeepsQueue(m, t, l, a);
    if CanDecide(m', k - 1) {
      TakesStep(m, t, l, k);
    }
  }

  // ----- The scan ------------------------------------------------------------------------

  predicate ScansAt(m: Memory, a: Abs, t: Tid, i: nat) {
    At(m, t).pc.Scan? && a.Held? && i == IndexOf(a.q.main, At(m, t).pc.cur) && i < |a.q.main|
  }

  /** A scan that stops at main[i], to grant it or because the batch is used up. */
  predicate Stops(m: Memory, t: Tid)
    requires At(m, t).pc.Scan?
  {
    BatchIn(At(m, t).spin) >= SHORT_BATCH_THRESHOLD || At(m, At(m, t).pc.cur).len < m.threshold
  }

  lemma StopDecides(m: Memory, a: Abs, t: Tid, k: nat)
    requires Related(m, a) && At(m, t).pc.Scan? && Stops(m, t) && k > 0
    ensures CanDecide(m, k)
  {
    var b := BatchIn(At(m, t).spin);
    if b >= SHORT_BATCH_THRESHOLD {
      FlushIsHandoff(m, t, 1, m.threshold, a);
      TakesStep(m, t, Flush(1, m.threshold), k);
    } else {
      var l := PickCur(b + 1, AfterPick(m.threshold, b));
      var c := PickIsHandoff(m, t, l, a);
      TakesStep(m, t, l, k);
    }
  }

  lemma {:induction false} AdvanceTakes(m: Memory, a: Abs, t: Tid, i: nat, k: nat) returns (m': Memory)
    requires Related(m, a) && ScansAt(m, a, t, i) && !Stops(m, t) && k > 0
    requires At(m, At(m, t).pc.cur).next.Some?
    ensures Related(m', a) && ScansAt(m', a, t, i + 1) && (CanDecide(m', k - 1) ==> CanDecide(m, k))
  {
    AdvanceScans(m, a, t, i);
    m' := Takes(m, t, Advance(false), a, k);
  }

  lemma AdvanceScans(m: Memory, a: Abs, t: Tid, i: nat)
    requires Related(m, a) && ScansAt(m, a, t, i) && Enabled(m, t, Advance(false))
    ensures ScansAt(Do(m, t, Advance(false)), a, t, i + 1)
  {
    var at := ScanStands(m, t, a);
    assert Before(a, i + 1) == At(m, t).pc.cur;
    assert i + 1 < |a.q.main| ==> MainNode(m, a, i + 1);
    IndexIs(a, i + 1);
  }

  lemma {:induction false} EndTakes(m: Memory, a: Abs, t: Tid, k: nat) returns (m': Memory)
    requires Related(m, a) && At(m, t).pc.Scan? && !Stops(m, t) && k > 0
    requires At(m, At(m, t).pc.cur).next.None?
    ensures Related(m', a) && At(m', t).pc.Missed? && (CanDecide(m', k - 1) ==> CanDecide(m, k))
  {
    m' := Takes(m, t, EndScan(false), a, k);
  }

  lemma MissDecides(m: Memory, a: Abs, t: Tid, k: nat)
    requires Related(m, a) && At(m, t).pc.Missed? && k >= 1
    ensures CanDecide(m, k)
  {
    FlushIsHandoff(m, t, 1, m.threshold + 1, a);
    TakesStep(m, t, Flush(1, m.threshold + 1), k);
  }

  lemma EndDecides(m: Memory, a: Abs, t: Tid, k: nat)
    requires Related(m, a) && At(m, t).pc.Scan? && !Stops(m, t) && At(m, At(m, t).pc.cur).next.None? && k >= 2
    ensures CanDecide(m, k)
  {
    var m' := EndTakes(m, a, t, k);
    MissDecides(m', a, t, k - 1);
  }

  /** The rest of a scan that has come to main[i]. */
  lemma {:induction false} ScanDecides(m: Memory, a: Abs, t: Tid, i: nat, k: nat)
    requires Related(m, a) && ScansAt(m, a, t, i) && k >= |a.q.main| - i + 1
    ensures CanDecide(m, k)
    decreases k
  {
    if Stops(m, t) {
      StopDecides(m, a, t, k);
    } else if At(m, At(m, t).pc.cur).next.Some? {
      var m' := AdvanceTakes(m, a, t, i, k);
      ScanDecides(m', a, t, i + 1, k - 1);
    } else {
      EndDecides(m, a, t, k);
    }
  }

  // ----- Up to the scan ------------------------------------------------------------------

  lemma {:induction false} ReadTakes(m: Memory, a: Abs, l: Label, k: nat) returns (m': Memory)
    requires Related(m, a) && a.Held? && Enabled(m, a.owner.who, l) && (l.ReadNext? || l.SeeLink?)
    requires At(m, a.owner.who).next.Some? && k > 0
    ensures Related(m', a) && ScansAt(m', a, a.owner.who, 0) && (CanDecide(m', k - 1) ==> CanDecide(m, k))
  {
    NextIsFirst(m, a);
    IndexIs(a, 0);
    m' := Takes(m, a.owner.who, l, a, k);
  }

  /** From a link that can be read, the whole scan. */
  lemma ReadDecides(m: Memory, a: Abs, l: Label, k: nat)
    requires Related(m, a) && a.Held? && Enabled(m, a.owner.who, l) && (l.ReadNext? || l.SeeLink?)
    requires At(m, a.owner.who).next.Some? && k >= |a.q.main| + 2
    ensures CanDecide(m, k)
  {
    var m' := ReadTakes(m, a, l, k);
    ScanDecides(m', a, a.owner.who, 0, k - 1);
  }

  /** The missing link comes. */
  lemma {:induction false} LinkTakes(m: Memory, a: Abs, k: nat) returns (m': Memory)
    requires Related(m, a) && a.Held? && At(m, a.owner.who).pc.AwaitLink? && At(m, a.owner.who).next.None? && k > 0
    ensures Related(m', a) && At(m', a.owner.who).pc.AwaitLink? && At(m', a.owner.who).next.Some?
    ensures CanDecide(m', k - 1) ==> CanDecide(m, k)
  {
    assert MainNode(m, a, 0) && Before(a, 0) == a.owner.who;
    Apart(a);
    m' := Takes(m, a.q.main[0].who, Link, a, k);
  }

  lemma AwaiterDecides(m: Memory, a: Abs, k: nat)
    requires Related(m, a) && a.Held? && At(m, a.owner.who).pc.AwaitLink? && k >= |a.q.main| + 3
    ensures CanDecide(m, k)
  {
    if At(m, a.owner.who).next.Some? {
      ReadDecides(m, a, SeeLink, k);
    } else {
      var m' := LinkTakes(m, a, k);
      ReadDecides(m', a, SeeLink, k - 1);
    }
  }

  lemma {:induction false} CasTakes(m: Memory, a: Abs, k: nat) returns (m': Memory)
    requires Related(m, a) && a.Held? && At(m, a.owner.who).pc.TailCas? && m.tail != Some(a.owner.who) && k > 0
    ensures Related(m', a) && At(m', a.owner.who).pc.AwaitLink? && (CanDecide(m', k - 1) ==> CanDecide(m, k))
  {
    m' := Takes(m, a.owner.who, Cas, a, k);
  }

  lemma CasDecides(m: Memory, a: Abs, k: nat)
    requires Related(m, a) && a.Held? && At(m, a.owner.who).pc.TailCas? && k >= |a.q.main| + 4
    ensures CanDecide(m, k)
  {
    if m.tail == Some(a.owner.who) {
      TakesStep(m, a.owner.who, Cas, k);
    } else {
      var m' := CasTakes(m, a, k);
      AwaiterDecides(m', a, k - 1);
    }
  }

  lemma {:induction false} LookTakes(m: Memory, a: Abs, k: nat) returns (m': Memory)
    requires Related(m, a) && a.Held? && At(m, a.owner.who).pc.Holding? && At(m, a.owner.who).next.None? && k > 0
    ensures Related(m', a) && At(m', a.owner.who).pc.TailCas? && (CanDecide(m', k - 1) ==> CanDecide(m, k))
  {
    m' := Takes(m, a.owner.who, ReadNext, a, k);
  }

  lemma HolderDecides(m: Memory, a: Abs, k: nat)
    requires Related(m, a) && a.Held? && At(m, a.owner.who).pc.Holding? && k >= |a.q.main| + 5
    ensures CanDecide(m, k)
  {
    if At(m, a.owner.who).next.Some? {
      ReadDecides(m, a, ReadNext, k);
    } else {
      var m' := LookTakes(m, a, k);
      CasDecides(m', a, k - 1);
    }
  }

  /** A granted thread sees it. */
  lemma {:induction false} ObserveTakes(m: Memory, a: Abs, k: nat) returns (m': Memory)
    requires Related(m, a) && a.Held? && At(m, a.owner.who).pc.Waiting? && At(m, a.owner.who).spin.Grant? && k > 0
    ensures Related(m', a) && At(m', a.owner.who).pc.Holding? && (CanDecide(m', k - 1) ==> CanDecide(m, k))
  {
    m' := Takes(m, a.owner.who, Observe, a, k);
  }

  lemma GrantedDecides(m: Memory, a: Abs, k: nat)
    requires Related(m, a) && a.Held? && At(m, a.owner.who).pc.Waiting? && At(m, a.owner.who).spin.Grant?
    requires k >= |a.q.main| + 6
    ensures CanDecide(m, k)
  {
    var m' := ObserveTakes(m, a, k);
    HolderDecides(m', a, k - 1);
  }

  /** A grant that is owed arrives. */
  lemma {:induction false} StoreTakes(m: Memory, a: Abs, g: Tid, k: nat) returns (m': Memory)
    requires Related(m, a) && a.Held? && At(m, g).pc.Granting? && k > 0
    ensures Related(m', a) && At(m', a.owner.who).pc.Waiting? && At(m', a.owner.who).spin.Grant?
    ensures CanDecide(m', k - 1) ==> CanDecide(m, k)
  {
    m' := Takes(m, g, Store, a, k);
  }

  lemma GranterDecides(m: Memory, a: Abs, g: Tid, k: nat)
    requires Related(m, a) && a.Held? && At(m, g).pc.Granting? && k >= |a.q.main| + 7
    ensures CanDecide(m, k)
  {
    var m' := StoreTakes(m, a, g, k);
    GrantedDecides(m', a, k - 1);
  }

  /** While the lock is not free, |unserved| + 7 steps of threads that are queued, or owe a grant, are
      enough to hand it on or free it, and they are steps uta.c takes: the scan ends, the missing
      link comes, and the grant is seen. */
  lemma NeverStuck(ms: seq<Memory>, acts: seq<Act>, n: nat, k: nat)
    requires IsExecution(ms, acts) && n <= |acts| && ms[n].tail.Some? && k >= |Unserved(ms, acts, n)| + 7
    ensures CanDecide(ms[n], k)
  {
    var m, a := ms[n], History(ms, acts, n);
    AlwaysRelated(ms, acts, n);
    QueuesAreTheArrivalOrder(ms, acts, n);
    assert |a.q.main| <= |Unserved(ms, acts, n)|;
    var o := At(m, a.owner.who);
    if g :| At(m, g).pc.Granting? {
      GranterDecides(m, a, g, k);
    } else {
      match o.pc
      case Waiting => GrantedDecides(m, a, k);
      case Holding => HolderDecides(m, a, k);
      case TailCas => CasDecides(m, a, k);
      case AwaitLink => AwaiterDecides(m, a, k);
      case Scan(cur, _, _) =>
        var i := ScanStands(m, a.owner.who, a);
        ScanDecides(m, a, a.owner.who, i, k);
      case Missed(_, _) => MissDecides(m, a, a.owner.who, k);
    }
  }
}
