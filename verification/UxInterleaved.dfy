/**
 uxpick.c under every interleaving. The key of a node is its uxthread flag. The batch counter is
 stored after the grant there, so that two releases can overlap on it; a release may therefore find
 it used up or not, whatever it would be in some order, and the order of service does not depend
 on it.
 */
module UxInterleaved {
  import opened TwoQueue
  import opened Uta
  import opened FineLock
  import opened FineLockProof
  import opened FineLockTheorems
  import UtaInterleaved

  /** The flag of t, by the steps alone. */
  predicate CameAsUx(acts: seq<Act>, i: nat, t: Tid)
    requires i <= |acts|
  {
    Brought(acts, i, t) != 0
  }

  predicate IsUx(m: Memory, t: Tid) {
    At(m, t).len != 0
  }

  /** The labels uxpick.c takes: before it looks it may find the batch used up, and flush; else it
      grants the first ux node, and finding none it flushes. */
  predicate UxChoice(m: Memory, t: Tid, l: Label) {
    var n := At(m, t);
    if n.pc.Scan? && l.Flush? then n.pc.last == t
    else if n.pc.Scan? && IsUx(m, n.pc.cur) then l.PickCur?
    else if n.pc.Scan? then l == Advance(false) || l == EndScan(false)
    else if n.pc.Missed? then l.Flush?
    else true
  }

  predicate UxChoosesAt(ms: seq<Memory>, acts: seq<Act>, i: nat)
    requires i < |acts| <= |ms|
  {
    UxChoice(ms[i], acts[i].0, acts[i].1)
  }

  ghost predicate IsUxExecution(ms: seq<Memory>, acts: seq<Act>) {
    IsExecution(ms, acts) && forall i: nat :: i < |acts| ==> UxChoosesAt(ms, acts, i)
  }

  // ----- The invariant -----------------------------------------------------------------

  ghost predicate NoUx(ws: seq<Waiter<Tid>>, n: nat) {
    forall i :: 0 <= i < n && i < |ws| ==> ws[i].len == 0
  }

  /** No ux thread is in the secondary queue, or behind a scan under way. */
  ghost predicate UxInv(m: Memory, a: Abs) {
    a.Held? ==>
      && NoUx(a.q.sec, |a.q.sec|)
      && match At(m, a.owner.who).pc
         case Scan(cur, _, _) => NoUx(a.q.main, IndexOf(a.q.main, cur))
         case Missed(cur, _) => NoUx(a.q.main, IndexOf(a.q.main, cur) + 1)
         case _ => true
  }

  lemma ArrivalKeepsUx(m: Memory, t: Tid, a: Abs)
    requires Related(m, a) && UxInv(m, a) && Enabled(m, t, Exchange)
    ensures UxInv(Do(m, t, Exchange), Effect(m, t, Exchange, a))
  {
    if a.Held? {
      ExchangeOnHeld(m, t, a);
      var o := a.owner.who;
      assert o != t by { MembersOf(a); }
      if At(m, o).pc.Scan? || At(m, o).pc.Missed? {
        var k := ScanStands(m, o, a);
        UtaInterleaved.IndexOfLonger(a.q.main, Waiter(t, At(m, t).len), At(m, o).pc.cur);
      }
    }
  }

  lemma AdvanceKeepsUx(m: Memory, t: Tid, a: Abs)
    requires Related(m, a) && UxInv(m, a) && Enabled(m, t, Advance(false)) && !IsUx(m, At(m, t).pc.cur)
    ensures UxInv(Do(m, t, Advance(false)), a)
  {
    var k := ScanStands(m, t, a);
    UtaInterleaved.LenIs(m, a, k);
    NextInMain(m, t, a, k);
    NowScans(Do(m, t, Advance(false)), a, k + 1);
  }

  lemma NowScans(m: Memory, a: Abs, k: nat)
    requires a.Held? && NoUx(a.q.sec, |a.q.sec|) && NoUx(a.q.main, k) && At(m, a.owner.who).pc.Scan?
    requires IndexOf(a.q.main, At(m, a.owner.who).pc.cur) == k
    ensures UxInv(m, a)
  {
  }

  lemma NowMissed(m: Memory, a: Abs, k: nat)
    requires a.Held? && NoUx(a.q.sec, |a.q.sec|) && NoUx(a.q.main, k + 1) && At(m, a.owner.who).pc.Missed?
    requires IndexOf(a.q.main, At(m, a.owner.who).pc.cur) == k
    ensures UxInv(m, a)
  {
  }

  lemma NextInMain(m: Memory, t: Tid, a: Abs, k: nat)
    requires Related(m, a) && Enabled(m, t, Advance(false)) && a.Held? && t == a.owner.who
    requires ScannedTo(m, a, k, At(m, t).pc.cur)
    ensures At(Do(m, t, Advance(false)), t).pc.Scan?
    ensures IndexOf(a.q.main, At(Do(m, t, Advance(false)), t).pc.cur) == k + 1
  {
    assert Before(a, k + 1) == At(m, t).pc.cur;
    assert k + 1 < |a.q.main| ==> MainNode(m, a, k + 1);
    IndexIs(a, k + 1);
  }

  lemma EndScanKeepsUx(m: Memory, t: Tid, a: Abs)
    requires Related(m, a) && UxInv(m, a) && Enabled(m, t, EndScan(false)) && !IsUx(m, At(m, t).pc.cur)
    ensures UxInv(Do(m, t, EndScan(false)), a)
  {
    var k := ScanStands(m, t, a);
    UtaInterleaved.LenIs(m, a, k);
    EndScanDoes(m, t);
    NowMissed(Do(m, t, EndScan(false)), a, k);
  }

  lemma EndScanDoes(m: Memory, t: Tid)
    requires Enabled(m, t, EndScan(false))
    ensures At(Do(m, t, EndScan(false)), t).pc == Missed(At(m, t).pc.cur, At(m, t).pc.best)
  {
  }

  lemma FirstReadKeepsUx(m: Memory, t: Tid, l: Label, a: Abs)
    requires Related(m, a) && UxInv(m, a) && Enabled(m, t, l) && (l.ReadNext? || l.SeeLink?)
    ensures UxInv(Do(m, t, l), a)
  {
    ReleaserOwns(m, a, t);
    if At(m, t).next.Some? {
      NextIsFirst(m, a);
      IndexIs(a, 0);
    }
  }

  /** A decision leaves in the secondary queue only whom it had, or passed. */
  lemma DecisionKeepsUx(m: Memory, t: Tid, l: Label, a: Abs)
    requires Related(m, a) && UxInv(m, a) && Enabled(m, t, l) && Decides(m, t, l) && !l.PickBest?
    ensures UxInv(Do(m, t, l), Effect(m, t, l, a))
  {
    StepKeeps(m, t, l, a);
    var c := DecisionIsHandoff(m, t, l, a);
    var a' := Effect(m, t, l, a);
    assert At(Do(m, t, l), t).pc.Granting?;
    NoScanUnderWay(Do(m, t, l), t, a');
    DecisionLeaves(m, t, l, a);
  }

  lemma NoScanUnderWay(m: Memory, t: Tid, a: Abs)
    requires Related(m, a) && a.Held? && At(m, t).pc.Granting?
    ensures !At(m, a.owner.who).pc.Scan? && !At(m, a.owner.who).pc.Missed?
  {
  }

  lemma DecisionLeaves(m: Memory, t: Tid, l: Label, a: Abs)
    requires Related(m, a) && UxInv(m, a) && Enabled(m, t, l) && Decides(m, t, l) && !l.PickBest?
    ensures Effect(m, t, l, a).Held? && NoUx(Effect(m, t, l, a).q.sec, |Effect(m, t, l, a).q.sec|)
  {
    var c := DecisionIsHandoff(m, t, l, a);
    match l
    case PickCur(b, _) =>
      var k := ScanStands(m, t, a);
      assert Effect(m, t, l, a) == HandOver(a, Pick(k), b);
      assert forall i :: 0 <= i < k ==> a.q.main[..k][i] == a.q.main[i];
    case Flush(b, thr) => FlushIsHandoff(m, t, b, thr, a);
    case Cas => CasIsHandoff(m, t, a);
    case _ =>
  }

  lemma OtherStepKeepsUx(m: Memory, t: Tid, l: Label, a: Abs)
    requires Related(m, a) && UxInv(m, a) && Enabled(m, t, l) && !Decides(m, t, l)
    requires l.Enter? || l.Link? || l.Observe? || l.Store? || l.Cas?
    ensures UxInv(Do(m, t, l), Effect(m, t, l, a))
  {
    var c := DecisionIsHandoff(m, t, l, a);
    if l.Link? {
      var i := LinkerIs(m, t, a);
    }
  }

  lemma StepKeepsUx(m: Memory, t: Tid, l: Label, a: Abs)
    requires Related(m, a) && UxInv(m, a) && Enabled(m, t, l) && UxChoice(m, t, l)
    ensures UxInv(Do(m, t, l), Effect(m, t, l, a))
  {
    if Decides(m, t, l) {
      DecisionKeepsUx(m, t, l, a);
    } else {
      match l
      case Advance(_) => AdvanceKeepsUx(m, t, a);
      case EndScan(_) => EndScanKeepsUx(m, t, a);
      case ReadNext => FirstReadKeepsUx(m, t, l, a);
      case SeeLink => FirstReadKeepsUx(m, t, l, a);
      case Exchange => ArrivalKeepsUx(m, t, a);
      case PickCur(_, _) => var c := PickIsHandoff(m, t, l, a);
      case Flush(b, thr) => FlushIsHandoff(m, t, b, thr, a);
      case PickBest(_, _) => var c := PickIsHandoff(m, t, l, a);
      case _ => OtherStepKeepsUx(m, t, l, a);
    }
  }

  ghost predicate UxFits(m: Memory, a: Abs) {
    Related(m, a) && UxInv(m, a)
  }

  lemma {:induction false} AlwaysUx(ms: seq<Memory>, acts: seq<Act>, i: nat)
    requires IsUxExecution(ms, acts) && i < |ms|
    ensures UxFits(ms[i], History(ms, acts, i))
  {
    AlwaysRelated(ms, acts, i);
    if i > 0 {
      AlwaysUx(ms, acts, i - 1);
      assert FineLockTheorems.StepAt(ms, acts, i - 1) && EnabledAt(ms, acts, i - 1) && UxChoosesAt(ms, acts, i - 1);
      StepKeepsUx(ms[i - 1], acts[i - 1].0, acts[i - 1].1, History(ms, acts, i - 1));
    }
  }

  // ----- Who passes whom -----------------------------------------------------------------

  lemma ChoicePassesNonUx(m: Memory, t: Tid, l: Label, a: Abs, early: nat, late: nat)
    requires Related(m, a) && UxInv(m, a)
    requires Enabled(m, t, l) && UxChoice(m, t, l) && Decides(m, t, l)
    requires a.Held? && early < late < |a.q.Order()|
    requires a.q.Order()[late].who == At(Do(m, t, l), t).pc.to
    ensures IsUx(m, a.q.Order()[late].who) && !IsUx(m, a.q.Order()[early].who)
  {
    var c := DecisionIsHandoff(m, t, l, a);
    UtaInterleaved.GranteeHasRank(a, c, late);
    UtaInterleaved.LenInOrder(m, a, early);
    assert l.PickCur?;
    var k := ScanStands(m, t, a);
    EarlyIsNotUx(a, k, early);
  }

  lemma EarlyIsNotUx(a: Abs, k: nat, early: nat)
    requires a.Held? && k <= |a.q.main| && NoUx(a.q.sec, |a.q.sec|) && NoUx(a.q.main, k) && early < |a.q.sec| + k
    ensures a.q.Order()[early].len == 0
  {
  }

  /** UX priority is safe in every interleaving of uxpick.c, whatever the batch counter does: whoever
      is chosen ahead of an earlier arrival still unserved is a ux thread, and the one passed is
      not. */
  lemma OnlyUxPassesNonUx(ms: seq<Memory>, acts: seq<Act>, i: nat, early: nat, late: nat)
    requires IsUxExecution(ms, acts) && i < |acts| && DecidesAt(ms, acts, i)
    requires early < late < |Unserved(ms, acts, i)|
    requires Unserved(ms, acts, i)[late] == Chooses(ms, acts, i)
    ensures CameAsUx(acts, i, Unserved(ms, acts, i)[late]) && !CameAsUx(acts, i, Unserved(ms, acts, i)[early])
  {
    var a := History(ms, acts, i);
    QueuesAreTheArrivalOrder(ms, acts, i);
    AlwaysUx(ms, acts, i);
    assert EnabledAt(ms, acts, i) && UxChoosesAt(ms, acts, i);
    ChoicePassesNonUx(ms[i], acts[i].0, acts[i].1, a, early, late);
    LensAreBrought(ms, acts, i, Unserved(ms, acts, i)[early]);
    LensAreBrought(ms, acts, i, Unserved(ms, acts, i)[late]);
  }

  // ----- Who is served -------------------------------------------------------------------

  ghost predicate SeesUx(acts: seq<Act>, i: nat, seen: seq<Tid>)
    requires i <= |acts|
  {
    exists j :: 0 <= j < |seen| && CameAsUx(acts, i, seen[j])
  }

  ghost predicate IsFirstUx(acts: seq<Act>, i: nat, seen: seq<Tid>, j: nat)
    requires i <= |acts|
  {
    j < |seen| && CameAsUx(acts, i, seen[j]) && forall x :: 0 <= x < j ==> !CameAsUx(acts, i, seen[x])
  }

  /** The deciding thread found the batch used up, and did not look. */
  predicate UsedUp(ms: seq<Memory>, acts: seq<Act>, i: nat)
    requires i < |acts| < |ms|
  {
    acts[i].1.Flush? && At(ms[i], acts[i].0).pc.Scan?
  }

  ghost predicate Serves(ms: seq<Memory>, acts: seq<Act>, i: nat, seen: seq<Tid>)
    requires AllEnabled(ms, acts) && i < |acts| && DecidesAt(ms, acts, i)
  {
    if SeesUx(acts, i, seen) && !UsedUp(ms, acts, i) then
      exists j: nat :: IsFirstUx(acts, i, seen, j) && Chooses(ms, acts, i) == seen[j]
    else Unserved(ms, acts, i) != [] && Chooses(ms, acts, i) == Unserved(ms, acts, i)[0]
  }

  ghost predicate Stands(ms: seq<Memory>, acts: seq<Act>, i: nat, a: Abs) {
    && IsUxExecution(ms, acts) && i < |acts| && Related(ms[i], a) && UxInv(ms[i], a)
    && EnabledAt(ms, acts, i) && UxChoosesAt(ms, acts, i)
    && Unserved(ms, acts, i) == Whos(WaitersOf(a))
  }

  /** In every interleaving of uxpick.c: a release that looks grants the first ux thread its scan has
      come to; one that sees none, or does not look because the batch is used up, grants the oldest
      thread unserved. */
  lemma GrantsFirstUx(ms: seq<Memory>, acts: seq<Act>, i: nat, fuel: nat)
    requires IsUxExecution(ms, acts) && i < |acts| && DecidesAt(ms, acts, i) && fuel >= |Unserved(ms, acts, i)|
    ensures Serves(ms, acts, i, SeenBy(ms, acts, i, fuel))
  {
    var a := History(ms, acts, i);
    StandsAt(ms, acts, i);
    DecidingLabel(ms[i], acts[i].0, acts[i].1);
    match acts[i].1
    case Cas => CasServes(ms, acts, i, a);
    case PickCur(_, _) => PickServes(ms, acts, i, a, fuel);
    case _ => FlushServes(ms, acts, i, a, fuel);
  }

  lemma StandsAt(ms: seq<Memory>, acts: seq<Act>, i: nat)
    requires IsUxExecution(ms, acts) && i < |acts|
    ensures Stands(ms, acts, i, History(ms, acts, i))
  {
    QueuesAreTheArrivalOrder(ms, acts, i);
    AlwaysUx(ms, acts, i);
    assert EnabledAt(ms, acts, i) && UxChoosesAt(ms, acts, i);
  }

  lemma CasServes(ms: seq<Memory>, acts: seq<Act>, i: nat, a: Abs)
    requires Stands(ms, acts, i, a) && DecidesAt(ms, acts, i) && acts[i].1.Cas?
    ensures !At(ms[i], acts[i].0).pc.Scan? && !At(ms[i], acts[i].0).pc.Missed?
    ensures Unserved(ms, acts, i) != [] && Chooses(ms, acts, i) == Unserved(ms, acts, i)[0]
  {
    CasIsHandoff(ms[i], acts[i].0, a);
  }

  lemma PickServes(ms: seq<Memory>, acts: seq<Act>, i: nat, a: Abs, fuel: nat)
    requires Stands(ms, acts, i, a) && DecidesAt(ms, acts, i) && acts[i].1.PickCur? && fuel >= |WaitersOf(a)|
    ensures Serves(ms, acts, i, SeenBy(ms, acts, i, fuel))
  {
    var (t, l) := acts[i];
    var k := SeenIs(ms[i], t, a, fuel);
    var seen := SeenBy(ms, acts, i, fuel);
    UtaInterleaved.SeenIsBrought(ms, acts, i, a, seen);
    UtaInterleaved.LenIs(ms[i], a, k);
    var c := PickIsHandoff(ms[i], t, l, a);
    assert IsFirstUx(acts, i, seen, k);
    assert Chooses(ms, acts, i) == seen[k];
  }

  lemma FlushServes(ms: seq<Memory>, acts: seq<Act>, i: nat, a: Abs, fuel: nat)
    requires Stands(ms, acts, i, a) && DecidesAt(ms, acts, i) && acts[i].1.Flush? && fuel >= |WaitersOf(a)|
    ensures Serves(ms, acts, i, SeenBy(ms, acts, i, fuel))
  {
    var (t, l) := acts[i];
    var k := SeenIs(ms[i], t, a, fuel);
    var seen := SeenBy(ms, acts, i, fuel);
    UtaInterleaved.SeenIsBrought(ms, acts, i, a, seen);
    FlushIsHandoff(ms[i], t, l.batch, l.threshold, a);
    assert Chooses(ms, acts, i) == a.q.Order()[0].who == Unserved(ms, acts, i)[0];
    if !UsedUp(ms, acts, i) {
      NoneIsUx(acts, i, a, seen);
    }
  }

  lemma NoneIsUx(acts: seq<Act>, i: nat, a: Abs, seen: seq<Tid>)
    requires i <= |acts| && a.Held? && |seen| <= |a.q.main| && NoUx(a.q.main, |seen|)
    requires forall x :: 0 <= x < |seen| ==> Brought(acts, i, seen[x]) == a.q.main[x].len
    ensures !SeesUx(acts, i, seen)
  {
  }

  /** Without looking, it has come to no more than the first node. */
  lemma UsedUpIsAtTheFirst(ms: seq<Memory>, acts: seq<Act>, i: nat)
    requires IsUxExecution(ms, acts) && i < |acts| && UsedUp(ms, acts, i)
    ensures At(ms[i], acts[i].0).next == Some(At(ms[i], acts[i].0).pc.cur)
  {
    var a := History(ms, acts, i);
    StandsAt(ms, acts, i);
    var k := ScanStands(ms[i], acts[i].0, a);
    OwnerIsBeforeFirst(a, k);
  }

  lemma OwnerIsBeforeFirst(a: Abs, k: nat)
    requires a.Held? && DistinctIds(All(a)) && k <= |a.q.main| && Before(a, k) == a.owner.who
    ensures k == 0
  {
    Apart(a);
  }

  /** It gives up only at the end of what is linked. */
  lemma MissSawEverybody(ms: seq<Memory>, acts: seq<Act>, i: nat, fuel: nat)
    requires IsUxExecution(ms, acts) && i < |acts| && acts[i].1.EndScan? && fuel >= |Unserved(ms, acts, i)|
    ensures SeenBy(ms, acts, i, fuel) == Walk(ms[i], At(ms[i], acts[i].0).next, fuel)
    ensures !SeesUx(acts, i, SeenBy(ms, acts, i, fuel))
  {
    var a := History(ms, acts, i);
    StandsAt(ms, acts, i);
    var k := EndSees(ms[i], acts[i].0, acts[i].1, a, fuel);
    UtaInterleaved.SeenIsBrought(ms, acts, i, a, SeenBy(ms, acts, i, fuel));
  }

  lemma {:induction false} EndSees(m: Memory, t: Tid, l: Label, a: Abs, fuel: nat) returns (k: nat)
    requires Related(m, a) && UxInv(m, a) && Enabled(m, t, l) && UxChoice(m, t, l) && l.EndScan?
    requires fuel >= |WaitersOf(a)|
    ensures a.Held? && k < |a.q.main| && NoUx(a.q.main, k + 1)
    ensures Upto(m, At(m, t).next, At(m, t).pc.cur, fuel) == Whos(a.q.main[..k + 1]) == Walk(m, At(m, t).next, fuel)
  {
    k := ScanStands(m, t, a);
    UtaInterleaved.LenIs(m, a, k);
    UtaInterleaved.EndWalks(m, t, a, k, fuel);
  }
}
