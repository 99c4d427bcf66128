/**
 cspick.c under every interleaving. The scan remembers the shortest waiter behind the head with the
 one before it, and the release takes it when nobody is short. As in module UxInterleaved a release
 may find the batch used up or not, and the order of service does not depend on it.
 */
module CsInterleaved {
  import opened TwoQueue
  import opened Uta
  import opened FineLock
  import opened FineLockProof
  import opened FineLockTheorems
  import PickLock
  import UtaInterleaved

  predicate IsShort(m: Memory, t: Tid) {
    At(m, t).len < PickLock.MIN_THRESHOLD
  }

  /** min_len. */
  function MinLen(m: Memory, best: Option<(Tid, Tid)>): int {
    if best.Some? then At(m, best.value.0).len else PickLock.MAX_INT
  }

  /** The node under the scan becomes the best candidate. */
  predicate Keeps(m: Memory, t: Tid)
    requires At(m, t).pc.Scan?
  {
    At(m, t).pc.last != t && At(m, At(m, t).pc.cur).len < MinLen(m, At(m, t).pc.best)
  }

  /** The labels cspick.c takes: before it looks it may find the batch used up, and flush; else it
      grants the first short node; at the end of the list it grants the candidate, or flushes. */
  predicate CsChoice(m: Memory, t: Tid, l: Label) {
    var n := At(m, t);
    if n.pc.Scan? && l.Flush? then n.pc.last == t
    else if n.pc.Scan? && IsShort(m, n.pc.cur) then l.PickCur?
    else if n.pc.Scan? then l == Advance(Keeps(m, t)) || l == EndScan(Keeps(m, t))
    else if n.pc.Missed? then if n.pc.best.Some? then l.PickBest? else l.Flush?
    else true
  }

  predicate CsChoosesAt(ms: seq<Memory>, acts: seq<Act>, i: nat)
    requires i < |acts| <= |ms|
  {
    CsChoice(ms[i], acts[i].0, acts[i].1)
  }

  ghost predicate IsCsExecution(ms: seq<Memory>, acts: seq<Act>) {
    IsExecution(ms, acts) && forall i: nat :: i < |acts| ==> CsChoosesAt(ms, acts, i)
  }

  // ----- The invariant -----------------------------------------------------------------

  /** The candidate of a scan is the leftmost minimum of main[1..k), and nobody in main[..k) is
      short. */
  ghost predicate Scanned(a: Abs, k: nat, best: Option<(Tid, Tid)>)
    requires a.Held?
  {
    && k <= |a.q.main|
    && (forall i :: 0 <= i < k ==> a.q.main[i].len >= PickLock.MIN_THRESHOLD)
    && best == Node2(a, PickLock.LeftmostMin(a.q.main[..k]))
  }

  /** A node of the main queue and the one before it. */
  function Node2(a: Abs, r: Option<nat>): Option<(Tid, Tid)>
    requires a.Held?
  {
    if r.Some? && r.value < |a.q.main| then Some((a.q.main[r.value].who, Before(a, r.value))) else None
  }

  ghost predicate CsInv(m: Memory, a: Abs) {
    PickLock.SecIsNotShort(a) && (a.Held? ==> ScanFits(m, a))
  }

  ghost predicate ScanFits(m: Memory, a: Abs)
    requires a.Held?
  {
    match At(m, a.owner.who).pc
    case Scan(cur, _, best) => Scanned(a, IndexOf(a.q.main, cur), best)
    case Missed(cur, best) => Scanned(a, IndexOf(a.q.main, cur) + 1, best)
    case _ => true
  }

  /** One node further. */
  lemma ScannedGrows(m: Memory, t: Tid, a: Abs, k: nat)
    requires Related(m, a) && At(m, t).pc.Scan? && a.Held? && t == a.owner.who
    requires ScannedTo(m, a, k, At(m, t).pc.cur) && At(m, t).pc.last == Before(a, k)
    requires Scanned(a, k, At(m, t).pc.best) && !IsShort(m, At(m, t).pc.cur)
    ensures Scanned(a, k + 1, if Keeps(m, t) then Some((At(m, t).pc.cur, At(m, t).pc.last)) else At(m, t).pc.best)
  {
    var main, best := a.q.main, At(m, t).pc.best;
    UtaInterleaved.LenIs(m, a, k);
    Apart(a);
    assert main[..k + 1][..k] == main[..k];
    var r := PickLock.LeftmostMin(main[..k]);
    if r.Some? {
      UtaInterleaved.LenIs(m, a, r.value);
    }
    assert MinLen(m, best) == if r.Some? then main[r.value].len else PickLock.MAX_INT;
    assert k > 0 ==> main[k - 1].who != t;
  }

  lemma AdvanceKeepsCs(m: Memory, t: Tid, l: Label, a: Abs)
    requires Related(m, a) && CsInv(m, a) && Enabled(m, t, l) && CsChoice(m, t, l) && l.Advance?
    ensures CsInv(Do(m, t, l), a)
  {
    var k := ScanStands(m, t, a);
    ScannedGrows(m, t, a, k);
    var x := ScanGoesOn(m, t, a, k);
    AdvanceDoes(m, t, l, x);
    AdvancedScans(m, t, l, a, k, x);
  }

  lemma AdvancedScans(m: Memory, t: Tid, l: Label, a: Abs, k: nat, x: Tid)
    requires Enabled(m, t, l) && CsChoice(m, t, l) && l.Advance? && a.Held? && t == a.owner.who
    requires IndexOf(a.q.main, x) == k + 1 && At(Do(m, t, l), t).pc == Scan(x, At(m, t).pc.cur, BestAfter(m, t))
    requires Scanned(a, k + 1, BestAfter(m, t))
    ensures ScanFits(Do(m, t, l), a)
  {
    NowScans(Do(m, t, l), a, k + 1);
  }

  /** The candidate after the node under the scan. */
  function BestAfter(m: Memory, t: Tid): Option<(Tid, Tid)>
    requires At(m, t).pc.Scan?
  {
    if Keeps(m, t) then Some((At(m, t).pc.cur, At(m, t).pc.last)) else At(m, t).pc.best
  }

  lemma AdvanceDoes(m: Memory, t: Tid, l: Label, x: Tid)
    requires Enabled(m, t, l) && CsChoice(m, t, l) && l.Advance? && At(m, At(m, t).pc.cur).next == Some(x)
    ensures var pc := At(m, t).pc;
      At(Do(m, t, l), t).pc == Scan(x, pc.cur, if Keeps(m, t) then Some((pc.cur, pc.last)) else pc.best)
  {
  }

  lemma NowScans(m: Memory, a: Abs, k: nat)
    requires a.Held? && At(m, a.owner.who).pc.Scan? && IndexOf(a.q.main, At(m, a.owner.who).pc.cur) == k
    requires Scanned(a, k, At(m, a.owner.who).pc.best)
    ensures ScanFits(m, a)
  {
  }

  /** What follows the node under the scan. */
  lemma {:induction false} ScanGoesOn(m: Memory, t: Tid, a: Abs, k: nat) returns (x: Tid)
    requires Related(m, a) && At(m, t).pc.Scan? && a.Held? && ScannedTo(m, a, k, At(m, t).pc.cur)
    requires At(m, At(m, t).pc.cur).next.Some?
    ensures k + 1 < |a.q.main| && IndexOf(a.q.main, x) == k + 1 && At(m, At(m, t).pc.cur).next == Some(x)
  {
    assert Before(a, k + 1) == At(m, t).pc.cur;
    assert k + 1 < |a.q.main| ==> MainNode(m, a, k + 1);
    IndexIs(a, k + 1);
    x := a.q.main[k + 1].who;
  }

  lemma EndScanKeepsCs(m: Memory, t: Tid, l: Label, a: Abs)
    requires Related(m, a) && CsInv(m, a) && Enabled(m, t, l) && CsChoice(m, t, l) && l.EndScan?
    ensures CsInv(Do(m, t, l), a)
  {
    var k := ScanStands(m, t, a);
    ScannedGrows(m, t, a, k);
    var best := if Keeps(m, t) then Some((At(m, t).pc.cur, At(m, t).pc.last)) else At(m, t).pc.best;
    EndScanDoes(m, t, l);
    assert At(Do(m, t, l), t).pc == Missed(At(m, t).pc.cur, best);
    NowMissed(Do(m, t, l), a, k);
  }

  lemma EndScanDoes(m: Memory, t: Tid, l: Label)
    requires Enabled(m, t, l) && CsChoice(m, t, l) && l.EndScan?
    ensures var pc := At(m, t).pc;
      At(Do(m, t, l), t).pc == Missed(pc.cur, if Keeps(m, t) then Some((pc.cur, pc.last)) else pc.best)
  {
  }

  lemma NowMissed(m: Memory, a: Abs, k: nat)
    requires a.Held? && At(m, a.owner.who).pc.Missed? && IndexOf(a.q.main, At(m, a.owner.who).pc.cur) == k
    requires Scanned(a, k + 1, At(m, a.owner.who).pc.best)
    ensures ScanFits(m, a)
  {
  }

  lemma FirstReadKeepsCs(m: Memory, t: Tid, l: Label, a: Abs)
    requires Related(m, a) && CsInv(m, a) && Enabled(m, t, l) && (l.ReadNext? || l.SeeLink?)
    ensures CsInv(Do(m, t, l), a)
  {
    ReleaserOwns(m, a, t);
    if At(m, t).next.Some? {
      NextIsFirst(m, a);
      IndexIs(a, 0);
      assert a.q.main[..0] == [];
    }
  }

  lemma ArrivalKeepsCs(m: Memory, t: Tid, a: Abs)
    requires Related(m, a) && CsInv(m, a) && Enabled(m, t, Exchange)
    ensures CsInv(Do(m, t, Exchange), Effect(m, t, Exchange, a))
  {
    if a.Held? {
      ExchangeOnHeld(m, t, a);
      var o, a' := a.owner.who, Effect(m, t, Exchange, a);
      assert o != t by { MembersOf(a); }
      assert At(Do(m, t, Exchange), o) == At(m, o);
      ScanFitsLonger(m, Do(m, t, Exchange), a, a', Waiter(t, At(m, t).len));
    }
  }

  lemma ScanFitsLonger(m: Memory, m': Memory, a: Abs, a': Abs, w: Waiter<Tid>)
    requires Related(m, a) && a.Held? && ScanFits(m, a) && a' == Held(a.owner, a.q.(main := a.q.main + [w]), a.batch)
    requires At(m', a.owner.who) == At(m, a.owner.who)
    ensures ScanFits(m', a')
  {
    var o := a.owner.who;
    if At(m, o).pc.Scan? || At(m, o).pc.Missed? {
      var k := ScanStands(m, o, a);
      UtaInterleaved.IndexOfLonger(a.q.main, w, At(m, o).pc.cur);
      ScannedBefore(a, a', if At(m, o).pc.Scan? then k else k + 1, At(m, o).pc.best);
    }
  }

  lemma ScannedBefore(a: Abs, a': Abs, k: nat, best: Option<(Tid, Tid)>)
    requires a.Held? && a'.Held? && a'.owner == a.owner && |a.q.main| <= |a'.q.main|
    requires a'.q.main[..|a.q.main|] == a.q.main && Scanned(a, k, best)
    ensures Scanned(a', k, best)
  {
    assert forall i :: 0 <= i < |a.q.main| ==> a'.q.main[i] == a.q.main[i];
    assert a'.q.main[..k] == a.q.main[..k];
    var r := PickLock.LeftmostMin(a.q.main[..k]);
    assert r.Some? ==> Before(a', r.value) == Before(a, r.value);
  }

  // ----- Decisions -----------------------------------------------------------------------

  /** A choice of cspick.c's rule, for a scan that saw v waiters; or the oldest. */
  ghost predicate Ruled(a: Abs, c: Choice, v: nat)
    requires a.Held?
  {
    c.Pick? ==> PickLock.Visible(a, v) && PickLock.FindShortOrMin(a.q.main[..v]) == Some(c.j)
  }

  /** After a scan of v waiters that came to its end, a flush means that the rule names nobody. */
  lemma {:induction false} FlushIsRuled(m: Memory, t: Tid, l: Label, a: Abs) returns (v: nat)
    requires Related(m, a) && CsInv(m, a) && Enabled(m, t, l) && CsChoice(m, t, l) && l.Flush? && At(m, t).pc.Missed?
    ensures a.Held? && 0 < v <= |a.q.main| && v == IndexOf(a.q.main, At(m, t).pc.cur) + 1
    ensures PickLock.FindShortOrMin(a.q.main[..v]) == None
  {
    var k := ScanStands(m, t, a);
    v := k + 1;
    assert FirstShort(a.q.main[..v], PickLock.MIN_THRESHOLD) == v;
  }

  lemma {:induction false} PickCurIsRuled(m: Memory, t: Tid, l: Label, a: Abs) returns (c: Choice, v: nat)
    requires Related(m, a) && CsInv(m, a) && Enabled(m, t, l) && CsChoice(m, t, l) && l.PickCur?
    ensures a.Held? && Allowed(a.q, c) && c.Pick? && Ruled(a, c, v) && Effect(m, t, l, a) == HandOver(a, c, l.batch)
    ensures v == IndexOf(a.q.main, At(m, t).pc.cur) + 1
  {
    var k := ScanStands(m, t, a);
    c, v := Pick(k), k + 1;
    UtaInterleaved.LenIs(m, a, k);
    assert Allowed(a.q, c);
    FirstShortIs(a.q.main[..v], PickLock.MIN_THRESHOLD, k);
  }

  lemma {:induction false} PickBestIsRuled(m: Memory, t: Tid, l: Label, a: Abs) returns (c: Choice, v: nat)
    requires Related(m, a) && CsInv(m, a) && Enabled(m, t, l) && CsChoice(m, t, l) && l.PickBest?
    ensures a.Held? && Allowed(a.q, c) && c.Pick? && Ruled(a, c, v) && Effect(m, t, l, a) == HandOver(a, c, l.batch)
    ensures v == IndexOf(a.q.main, At(m, t).pc.cur) + 1
  {
    var k := ScanStands(m, t, a);
    v := k + 1;
    assert Scanned(a, v, At(m, t).pc.best);
    var r := CandidateIs(a, v, At(m, t).pc.best);
    c := Pick(r);
  }

  lemma {:induction false} CandidateIs(a: Abs, v: nat, best: Option<(Tid, Tid)>) returns (r: nat)
    requires a.Held? && DistinctIds(All(a)) && Scanned(a, v, best) && best.Some?
    ensures r < v && IndexOf(a.q.main, best.value.0) == r && PickLock.FindShortOrMin(a.q.main[..v]) == Some(r)
  {
    r := PickLock.LeftmostMin(a.q.main[..v]).value;
    IndexIs(a, r);
    assert FirstShort(a.q.main[..v], PickLock.MIN_THRESHOLD) == v;
  }

  /** Every decision follows the rule, on the waiters its scan saw. */
  lemma {:induction false} DecisionIsRuled(m: Memory, t: Tid, l: Label, a: Abs) returns (c: Choice, v: nat)
    requires Related(m, a) && CsInv(m, a) && Enabled(m, t, l) && CsChoice(m, t, l) && Decides(m, t, l)
    ensures a.Held? && Allowed(a.q, c) && Ruled(a, c, v) && Effect(m, t, l, a).Held?
    ensures Effect(m, t, l, a).q == After(a.q, c) && Effect(m, t, l, a).owner == Granted(a.q, c)
    ensures At(Do(m, t, l), t).pc.to == Granted(a.q, c).who
  {
    c := DecisionIsHandoff(m, t, l, a);
    v := 0;
    match l
    case PickCur(_, _) => c, v := PickCurIsRuled(m, t, l, a);
    case PickBest(_, _) => c, v := PickBestIsRuled(m, t, l, a);
    case Flush(b, thr) =>
      FlushIsHandoff(m, t, b, thr, a);
      c := Oldest;
    case Cas =>
      CasIsHandoff(m, t, a);
      c := Oldest;
    case _ =>
  }

  lemma DecisionKeepsCs(m: Memory, t: Tid, l: Label, a: Abs)
    requires Related(m, a) && CsInv(m, a) && Enabled(m, t, l) && CsChoice(m, t, l) && Decides(m, t, l)
    ensures CsInv(Do(m, t, l), Effect(m, t, l, a))
  {
    StepKeeps(m, t, l, a);
    var c, v := DecisionIsRuled(m, t, l, a);
    NoScanUnderWay(Do(m, t, l), t, Effect(m, t, l, a));
    PassedAreNotShort(a, c, v);
  }

  /** Who is passed goes to the secondary queue, and is not short. */
  lemma PassedAreNotShort(a: Abs, c: Choice, v: nat)
    requires a.Held? && Allowed(a.q, c) && Ruled(a, c, v) && PickLock.SecIsNotShort(a)
    ensures forall i :: 0 <= i < |After(a.q, c).sec| ==> After(a.q, c).sec[i].len >= PickLock.MIN_THRESHOLD
  {
    if c.Pick? {
      PickLock.FindShortOrMinIs(a.q.main[..v]);
      assert forall i :: 0 <= i < c.j ==> a.q.main[..v][i] == a.q.main[i];
    }
  }

  lemma NoScanUnderWay(m: Memory, t: Tid, a: Abs)
    requires Related(m, a) && a.Held? && At(m, t).pc.Granting?
    ensures ScanFits(m, a)
  {
  }

  lemma OtherStepKeepsCs(m: Memory, t: Tid, l: Label, a: Abs)
    requires Related(m, a) && CsInv(m, a) && Enabled(m, t, l) && !Decides(m, t, l)
    requires l.Enter? || l.Link? || l.Observe? || l.Store? || l.Cas?
    ensures CsInv(Do(m, t, l), Effect(m, t, l, a))
  {
    OtherStepIs(m, t, l, a);
    if Effect(m, t, l, a).Held? {
      ScanStays(m, Do(m, t, l), a);
    }
  }

  lemma OtherStepIs(m: Memory, t: Tid, l: Label, a: Abs)
    requires Related(m, a) && Enabled(m, t, l) && !Decides(m, t, l)
    requires l.Enter? || l.Link? || l.Observe? || l.Store? || l.Cas?
    ensures Effect(m, t, l, a) == a || Effect(m, t, l, a).Free?
    ensures a.Held? ==> OwnerStays(m, Do(m, t, l), a)
  {
    if l.Cas? {
      var c := DecisionIsHandoff(m, t, l, a);
    }
    if l.Link? {
      var i := LinkerIs(m, t, a);
    }
  }

  predicate OwnerStays(m: Memory, m': Memory, a: Abs)
    requires a.Held?
  {
    var pc := At(m', a.owner.who).pc;
    pc == At(m, a.owner.who).pc || !(pc.Scan? || pc.Missed?)
  }

  lemma ScanStays(m: Memory, m': Memory, a: Abs)
    requires a.Held? && ScanFits(m, a) && OwnerStays(m, m', a)
    ensures ScanFits(m', a)
  {
  }

  lemma StepKeepsCs(m: Memory, t: Tid, l: Label, a: Abs)
    requires Related(m, a) && CsInv(m, a) && Enabled(m, t, l) && CsChoice(m, t, l)
    ensures CsInv(Do(m, t, l), Effect(m, t, l, a))
  {
    if Decides(m, t, l) {
      DecisionKeepsCs(m, t, l, a);
    } else {
      match l
      case Advance(_) => AdvanceKeepsCs(m, t, l, a);
      case EndScan(_) => EndScanKeepsCs(m, t, l, a);
      case ReadNext => FirstReadKeepsCs(m, t, l, a);
      case SeeLink => FirstReadKeepsCs(m, t, l, a);
      case Exchange => ArrivalKeepsCs(m, t, a);
      case PickCur(_, _) => var c := PickIsHandoff(m, t, l, a);
      case PickBest(_, _) => var c := PickIsHandoff(m, t, l, a);
      case Flush(b, thr) => FlushIsHandoff(m, t, b, thr, a);
      case _ => OtherStepKeepsCs(m, t, l, a);
    }
  }

  ghost predicate CsFits(m: Memory, a: Abs) {
    Related(m, a) && CsInv(m, a)
  }

  lemma {:induction false} AlwaysCs(ms: seq<Memory>, acts: seq<Act>, i: nat)
    requires IsCsExecution(ms, acts) && i < |ms|
    ensures CsFits(ms[i], History(ms, acts, i))
  {
    AlwaysRelated(ms, acts, i);
    if i > 0 {
      AlwaysCs(ms, acts, i - 1);
      assert FineLockTheorems.StepAt(ms, acts, i - 1) && EnabledAt(ms, acts, i - 1) && CsChoosesAt(ms, acts, i - 1);
      StepKeepsCs(ms[i - 1], acts[i - 1].0, acts[i - 1].1, History(ms, acts, i - 1));
    }
  }

  // ----- Who passes whom -----------------------------------------------------------------

  /** In every interleaving of cspick.c a decision that picks passes only longer waiters, in both
      queues, exactly when its scan saw a short one, or one behind the head that is shorter than the
      head and than the whole secondary queue. */
  lemma {:induction false} PassesOnlyLongerIff(ms: seq<Memory>, acts: seq<Act>, i: nat) returns (c: Choice, v: nat)
    requires IsCsExecution(ms, acts) && i < |acts| && DecidesAt(ms, acts, i)
    ensures var a := History(ms, acts, i);
      && a.Held? && Allowed(a.q, c) && Chooses(ms, acts, i) == Granted(a.q, c).who
      && Unserved(ms, acts, i) == Whos(a.q.Order())
      && (forall w :: w in a.q.Order() ==> w.len == Brought(acts, i, w.who))
      && (c.Pick? ==>
            && PickLock.Visible(a, v) && c.j < v
            && (PickLock.PassesOnlyLonger(a.q, c) <==> PickLock.SeesShort(a, v) || PickLock.SeesShortest(a, v)))
  {
    var a := History(ms, acts, i);
    AlwaysCs(ms, acts, i);
    assert EnabledAt(ms, acts, i) && CsChoosesAt(ms, acts, i);
    c, v := DecisionIsRuled(ms[i], acts[i].0, acts[i].1, a);
    if c.Pick? {
      if PickLock.SeesShort(a, v) {
        PickLock.ShortPickPasses(a, v, c.j);
      } else {
        PickLock.MinPickPassesIff(a, v, c.j);
      }
    }
    QueuesAreTheArrivalOrder(ms, acts, i);
    forall w | w in a.q.Order() ensures w.len == Brought(acts, i, w.who) {
      var x: nat :| x < |a.q.Order()| && a.q.Order()[x] == w;
      OrderIsBrought(ms, acts, i, a, x);
    }
  }

  /** The lengths of the queues are those their threads came with. */
  lemma OrderIsBrought(ms: seq<Memory>, acts: seq<Act>, i: nat, a: Abs, x: nat)
    requires IsExecution(ms, acts) && i <= |acts| && Related(ms[i], a) && a.Held? && x < |a.q.Order()|
    ensures Brought(acts, i, a.q.Order()[x].who) == a.q.Order()[x].len
  {
    LensAreBrought(ms, acts, i, a.q.Order()[x].who);
    UtaInterleaved.LenInOrder(ms[i], a, x);
  }

  /** So a short thread that is chosen ahead of an earlier arrival still unserved is shorter than
      it. */
  lemma ShortPassesOnlyLonger(ms: seq<Memory>, acts: seq<Act>, i: nat, early: nat, late: nat)
    requires IsCsExecution(ms, acts) && i < |acts| && DecidesAt(ms, acts, i)
    requires early < late < |Unserved(ms, acts, i)|
    requires Unserved(ms, acts, i)[late] == Chooses(ms, acts, i)
    requires Brought(acts, i, Chooses(ms, acts, i)) < PickLock.MIN_THRESHOLD
    ensures Brought(acts, i, Unserved(ms, acts, i)[late]) < Brought(acts, i, Unserved(ms, acts, i)[early])
  {
    var a := History(ms, acts, i);
    QueuesAreTheArrivalOrder(ms, acts, i);
    AlwaysCs(ms, acts, i);
    var c, v := PassesOnlyLongerIff(ms, acts, i);
    UtaInterleaved.GranteeHasRank(a, c, late);
    OrderIsBrought(ms, acts, i, a, early);
    OrderIsBrought(ms, acts, i, a, late);
    HandoffRemovesOne(a.q, c);
    assert a.q.main[c.j].len < PickLock.MIN_THRESHOLD;
    assert PickLock.SeesShort(a, v);
  }

  // ----- Who is served -------------------------------------------------------------------

  /** The threads seen, with the lengths they came with. */
  function Came(acts: seq<Act>, i: nat, seen: seq<Tid>): seq<Waiter<Tid>>
    requires i <= |acts|
  {
    seq(|seen|, x requires 0 <= x < |seen| => Waiter(seen[x], Brought(acts, i, seen[x])))
  }

  /** The deciding thread found the batch used up, and did not look. */
  predicate UsedUp(ms: seq<Memory>, acts: seq<Act>, i: nat)
    requires i < |acts| < |ms|
  {
    acts[i].1.Flush? && At(ms[i], acts[i].0).pc.Scan?
  }

  predicate Serves(ms: seq<Memory>, acts: seq<Act>, i: nat, seen: seq<Tid>)
    requires AllEnabled(ms, acts) && i < |acts| && DecidesAt(ms, acts, i)
  {
    var found := PickLock.FindShortOrMin(Came(acts, i, seen));
    if found.Some? && !UsedUp(ms, acts, i) then Chooses(ms, acts, i) == seen[found.value]
    else Unserved(ms, acts, i) != [] && Chooses(ms, acts, i) == Unserved(ms, acts, i)[0]
  }

  ghost predicate Stands(ms: seq<Memory>, acts: seq<Act>, i: nat, a: Abs) {
    && IsCsExecution(ms, acts) && i < |acts| && Related(ms[i], a) && CsInv(ms[i], a)
    && EnabledAt(ms, acts, i) && CsChoosesAt(ms, acts, i)
    && Unserved(ms, acts, i) == Whos(WaitersOf(a))
  }

  lemma StandsAt(ms: seq<Memory>, acts: seq<Act>, i: nat)
    requires IsCsExecution(ms, acts) && i < |acts|
    ensures Stands(ms, acts, i, History(ms, acts, i))
  {
    QueuesAreTheArrivalOrder(ms, acts, i);
    AlwaysCs(ms, acts, i);
    assert EnabledAt(ms, acts, i) && CsChoosesAt(ms, acts, i);
  }

  /** In every interleaving of cspick.c: a release that looks grants the first short thread its scan
      has come to, else the leftmost minimum behind the head; if there is neither, or the batch is used
      up, it grants the oldest thread unserved. */
  lemma GrantsShortOrMin(ms: seq<Memory>, acts: seq<Act>, i: nat, fuel: nat)
    requires IsCsExecution(ms, acts) && i < |acts| && DecidesAt(ms, acts, i) && fuel >= |Unserved(ms, acts, i)|
    ensures Serves(ms, acts, i, SeenBy(ms, acts, i, fuel))
  {
    var a := History(ms, acts, i);
    StandsAt(ms, acts, i);
    DecidingLabel(ms[i], acts[i].0, acts[i].1);
    match acts[i].1
    case PickCur(_, _) => PickCurServes(ms, acts, i, a, fuel);
    case PickBest(_, _) => PickBestServes(ms, acts, i, a, fuel);
    case Flush(_, _) => FlushServes(ms, acts, i, a, fuel);
    case _ =>
      CasServes(ms, acts, i, a);
      NothingSeen(acts, i);
  }

  lemma CameIs(ms: seq<Memory>, acts: seq<Act>, i: nat, a: Abs, fuel: nat) returns (v: nat)
    requires Stands(ms, acts, i, a) && fuel >= |WaitersOf(a)|
    requires At(ms[i], acts[i].0).pc.Scan? || At(ms[i], acts[i].0).pc.Missed?
    ensures a.Held? && v <= |a.q.main| && v == IndexOf(a.q.main, At(ms[i], acts[i].0).pc.cur) + 1
    ensures var seen := SeenBy(ms, acts, i, fuel);
      Came(acts, i, seen) == a.q.main[..v] && |seen| == v && forall x :: 0 <= x < v ==> seen[x] == a.q.main[x].who
  {
    var k := SeenIs(ms[i], acts[i].0, a, fuel);
    v := k + 1;
    var seen := SeenBy(ms, acts, i, fuel);
    UtaInterleaved.SeenIsBrought(ms, acts, i, a, seen);
    assert forall x :: 0 <= x < v ==> Came(acts, i, seen)[x] == a.q.main[x];
  }

  lemma PickCurServes(ms: seq<Memory>, acts: seq<Act>, i: nat, a: Abs, fuel: nat)
    requires Stands(ms, acts, i, a) && DecidesAt(ms, acts, i) && acts[i].1.PickCur? && fuel >= |WaitersOf(a)|
    ensures Serves(ms, acts, i, SeenBy(ms, acts, i, fuel))
  {
    var (t, l) := acts[i];
    var n := CameIs(ms, acts, i, a, fuel);
    var d := PickIsHandoff(ms[i], t, l, a);
    var c, v := PickCurIsRuled(ms[i], t, l, a);
  }

  lemma PickBestServes(ms: seq<Memory>, acts: seq<Act>, i: nat, a: Abs, fuel: nat)
    requires Stands(ms, acts, i, a) && DecidesAt(ms, acts, i) && acts[i].1.PickBest? && At(ms[i], acts[i].0).pc.Missed?
    requires fuel >= |WaitersOf(a)|
    ensures Serves(ms, acts, i, SeenBy(ms, acts, i, fuel))
  {
    var (t, l) := acts[i];
    var n := CameIs(ms, acts, i, a, fuel);
    var d := PickIsHandoff(ms[i], t, l, a);
    var c, v := PickBestIsRuled(ms[i], t, l, a);
  }

  lemma FlushServes(ms: seq<Memory>, acts: seq<Act>, i: nat, a: Abs, fuel: nat)
    requires Stands(ms, acts, i, a) && DecidesAt(ms, acts, i) && acts[i].1.Flush? && fuel >= |WaitersOf(a)|
    ensures Serves(ms, acts, i, SeenBy(ms, acts, i, fuel))
  {
    var (t, l) := acts[i];
    var n := CameIs(ms, acts, i, a, fuel);
    FlushIsHandoff(ms[i], t, l.batch, l.threshold, a);
    if At(ms[i], t).pc.Missed? {
      var v := FlushIsRuled(ms[i], t, l, a);
    }
  }

  lemma CasServes(ms: seq<Memory>, acts: seq<Act>, i: nat, a: Abs)
    requires Stands(ms, acts, i, a) && DecidesAt(ms, acts, i) && acts[i].1.Cas?
    ensures !At(ms[i], acts[i].0).pc.Scan? && !At(ms[i], acts[i].0).pc.Missed?
    ensures Unserved(ms, acts, i) != [] && Chooses(ms, acts, i) == Unserved(ms, acts, i)[0]
  {
    CasIsHandoff(ms[i], acts[i].0, a);
  }

  lemma NothingSeen(acts: seq<Act>, i: nat)
    requires i <= |acts|
    ensures PickLock.FindShortOrMin(Came(acts, i, [])) == None
  {
  }

  /** A scan ends only at the end of what is linked. */
  lemma MissSawEverybody(ms: seq<Memory>, acts: seq<Act>, i: nat, fuel: nat)
    requires IsCsExecution(ms, acts) && i < |acts| && acts[i].1.EndScan? && fuel >= |Unserved(ms, acts, i)|
    ensures SeenBy(ms, acts, i, fuel) == Walk(ms[i], At(ms[i], acts[i].0).next, fuel)
  {
    var a := History(ms, acts, i);
    StandsAt(ms, acts, i);
    EndSees(ms[i], acts[i].0, acts[i].1, a, fuel);
  }

  lemma EndSees(m: Memory, t: Tid, l: Label, a: Abs, fuel: nat)
    requires Related(m, a) && Enabled(m, t, l) && l.EndScan? && fuel >= |WaitersOf(a)|
    ensures Upto(m, At(m, t).next, At(m, t).pc.cur, fuel) == Walk(m, At(m, t).next, fuel)
  {
    var k := ScanStands(m, t, a);
    UtaInterleaved.EndWalks(m, t, a, k, fuel);
  }
}
