/**
 The lock and unlock paths of uta.c as interleaved steps of any number of threads under
 sequential consistency.  Every thread brings one queue node; a step is one access to shared
 memory, except that the stores of a splice, which no other thread can observe before the
 grant, happen together.

 The machine allows any choice of the node to grant among those the scan has seen, so it also
 covers the release paths of utafts.c, uxpick.c and cspick.c; `UtaChoice` is the choice uta.c
 makes.
 */
module FineLock {
  import opened TwoQueue
  import opened Uta

  type Tid = nat

  /** The grant word `spin`: zero, or a batch and the head of the secondary queue. */
  datatype Word = Zero | Grant(batch: nat, head: Option<Tid>)

  function HeadIn(w: Word): Option<Tid> { if w.Zero? then None else w.head }

  function BatchIn(w: Word): nat { if w.Zero? then 0 else w.batch }

  /** What a thread does next.  A scan remembers the node before `cur` and, for policies that
      choose among several candidates, the best one so far with its predecessor. */
  datatype Pc =
    | Idle
    | Entering                  // has set next, spin and cri_len of its node
    | Linking(pred: Tid)        // has exchanged the tail
    | Waiting
    | Holding                   // in the critical section
    | TailCas                   // has read next as NULL
    | AwaitLink                 // the tail moved on: waits for next
    | Scan(cur: Tid, last: Tid, best: Option<(Tid, Tid)>)
    | Missed(cur: Tid, best: Option<(Tid, Tid)>)
    | Granting(to: Tid, word: Word)

  datatype Node = Node(next: Option<Tid>, spin: Word, secTail: Option<Tid>, len: int, pc: Pc)

  datatype Memory = Memory(tail: Option<Tid>, threshold: int, nodes: map<Tid, Node>)

  function Start(): Memory { Memory(None, DEFAULT_SHORT_THRESHOLD, map[]) }

  function At(m: Memory, t: Tid): Node {
    if t in m.nodes then m.nodes[t] else Node(None, Zero, None, 0, Idle)
  }

  function Put(m: Memory, t: Tid, n: Node): Memory { m.(nodes := m.nodes[t := n]) }
  function SetNext(m: Memory, t: Tid, v: Option<Tid>): Memory { Put(m, t, At(m, t).(next := v)) }
  function SetSecTail(m: Memory, t: Tid, v: Tid): Memory { Put(m, t, At(m, t).(secTail := Some(v))) }
  function SetPc(m: Memory, t: Tid, pc: Pc): Memory { Put(m, t, At(m, t).(pc := pc)) }

  datatype Label =
    | Enter(len: int)
    | Exchange
    | Link
    | Observe
    | ReadNext
    | Cas
    | SeeLink
    | Advance(keep: bool)       // keep: remember cur as the best candidate
    | EndScan(keep: bool)
    | PickCur(batch: nat, threshold: int)
    | PickBest(batch: nat, threshold: int)
    | Flush(batch: nat, threshold: int)
    | Store

  predicate Enabled(m: Memory, t: Tid, l: Label) {
    var n := At(m, t);
    match l
    case Enter(_) => n.pc.Idle?
    case Exchange => n.pc.Entering?
    case Link => n.pc.Linking?
    case Observe => n.pc.Waiting? && n.spin.Grant?
    case ReadNext => n.pc.Holding?
    case Cas => n.pc.TailCas?
    case SeeLink => n.pc.AwaitLink? && n.next.Some?
    case Advance(_) => n.pc.Scan? && At(m, n.pc.cur).next.Some?
    case EndScan(_) => n.pc.Scan? && At(m, n.pc.cur).next.None?
    case PickCur(_, _) => n.pc.Scan?
    case PickBest(_, _) => (n.pc.Scan? || n.pc.Missed?) && n.pc.best.Some?
    case Flush(_, _) => n.pc.Scan? || n.pc.Missed?
    case Store => n.pc.Granting?
  }

  /** Moves the nodes from the holder's successor up to `last` to the secondary queue. */
  function Splice(m: Memory, t: Tid, last: Tid): Memory {
    var first := At(m, t).next;
    if first.None? then m else
    match HeadIn(At(m, t).spin)
    case None => SetSecTail(SetNext(m, last, None), first.value, last)
    case Some(h) =>
      var m1 := match At(m, h).secTail case Some(e) => SetNext(m, e, first) case None => m;
      SetSecTail(SetNext(m1, last, None), h, last)
  }

  function HeadAfterSplice(m: Memory, t: Tid): Option<Tid> {
    if HeadIn(At(m, t).spin).Some? then HeadIn(At(m, t).spin) else At(m, t).next
  }

  function Do(m: Memory, t: Tid, l: Label): Memory
    requires Enabled(m, t, l)
  {
    var n := At(m, t);
    match l
    case Enter(len) => Put(m, t, Node(None, Zero, n.secTail, len, Entering))
    case Exchange =>
      SetPc(m, t, match m.tail case None => Holding case Some(p) => Linking(p)).(tail := Some(t))
    case Link => SetPc(SetNext(m, n.pc.pred, Some(t)), t, Waiting)
    case Observe => SetPc(m, t, Holding)
    case ReadNext =>
      SetPc(m, t, match n.next case None => TailCas case Some(x) => Scan(x, t, None))
    case Cas =>
      if m.tail != Some(t) then SetPc(m, t, AwaitLink)
      else (match HeadIn(n.spin)
            case None => SetPc(m, t, Idle).(tail := None)
            case Some(h) =>
              SetPc(m, t, Granting(h, Grant(1, None))).(tail := At(m, h).secTail))
    case SeeLink => SetPc(m, t, Scan(n.next.value, t, None))
    case Advance(keep) =>
      SetPc(m, t, Scan(At(m, n.pc.cur).next.value, n.pc.cur,
                       if keep && n.pc.last != t then Some((n.pc.cur, n.pc.last)) else n.pc.best))
    case EndScan(keep) =>
      SetPc(m, t, Missed(n.pc.cur, if keep && n.pc.last != t then Some((n.pc.cur, n.pc.last)) else n.pc.best))
    case PickCur(b, thr) =>
      (if n.pc.last == t then SetPc(m, t, Granting(n.pc.cur, Grant(b, HeadIn(n.spin))))
       else SetPc(Splice(m, t, n.pc.last), t, Granting(n.pc.cur, Grant(b, HeadAfterSplice(m, t)))))
      .(threshold := thr)
    case PickBest(b, thr) =>
      SetPc(Splice(m, t, n.pc.best.value.1), t,
            Granting(n.pc.best.value.0, Grant(b, HeadAfterSplice(m, t))))
      .(threshold := thr)
    case Flush(b, thr) =>
      (match HeadIn(n.spin)
       case Some(h) =>
         var m1 := match At(m, h).secTail case Some(e) => SetNext(m, e, n.next) case None => m;
         SetPc(m1, t, Granting(h, Grant(b, None)))
       case None =>
         match n.next
         case Some(x) => SetPc(m, t, Granting(x, Grant(b, None)))
         case None => m)
      .(threshold := thr)
    case Store =>
      SetPc(Put(m, n.pc.to, At(m, n.pc.to).(spin := n.pc.word)), t, Idle)
  }

  // ----- Relation with the queue discipline --------------------------------------------

  type Abs = Lock<Waiter<Tid>>

  function All(a: Abs): seq<Waiter<Tid>> {
    if a.Free? then [] else [a.owner] + a.q.Order()
  }

  ghost predicate DistinctIds(ws: seq<Waiter<Tid>>) {
    forall i, j :: 0 <= i < j < |ws| ==> ws[i].who != ws[j].who
  }

  ghost predicate Member(a: Abs, t: Tid) {
    exists i :: 0 <= i < |All(a)| && All(a)[i].who == t
  }

  /** The node before main[i]. */
  function Before(a: Abs, i: nat): Tid
    requires a.Held? && i <= |a.q.main|
  {
    if i == 0 then a.owner.who else a.q.main[i - 1].who
  }

  predicate LinkedAt(m: Memory, a: Abs, i: nat)
    requires a.Held? && i < |a.q.main|
  {
    At(m, Before(a, i)).next == Some(a.q.main[i].who) && At(m, a.q.main[i].who).pc.Waiting?
  }

  predicate PendingAt(m: Memory, a: Abs, i: nat)
    requires a.Held? && i < |a.q.main|
  {
    At(m, Before(a, i)).next == None && At(m, a.q.main[i].who).pc == Linking(Before(a, i))
  }

  predicate MainNode(m: Memory, a: Abs, i: nat)
    requires a.Held? && i < |a.q.main|
  {
    (LinkedAt(m, a, i) || PendingAt(m, a, i)) && At(m, a.q.main[i].who).spin.Zero?
  }

  ghost predicate MainShape(m: Memory, a: Abs)
    requires a.Held?
  {
    && (forall i :: 0 <= i < |a.q.main| ==> MainNode(m, a, i))
    && At(m, Before(a, |a.q.main|)).next == None
    && m.tail == Some(Before(a, |a.q.main|))
  }

  predicate SecNode(m: Memory, a: Abs, i: nat)
    requires a.Held? && i < |a.q.sec|
  {
    var n := At(m, a.q.sec[i].who);
    && n.pc.Waiting? && n.spin.Zero?
    && n.next == (if i + 1 < |a.q.sec| then Some(a.q.sec[i + 1].who) else None)
  }

  ghost predicate SecShape(m: Memory, a: Abs)
    requires a.Held?
  {
    && (forall i :: 0 <= i < |a.q.sec| ==> SecNode(m, a, i))
    && (a.q.sec != [] ==> At(m, a.q.sec[0].who).secTail == Some(a.q.sec[|a.q.sec| - 1].who))
  }

  predicate WordFits(a: Abs, w: Word)
    requires a.Held?
  {
    && BatchIn(w) == a.batch
    && HeadIn(w) == (if a.q.sec == [] then None else Some(a.q.sec[0].who))
  }

  predicate Releasing(pc: Pc) {
    pc.Holding? || pc.TailCas? || pc.AwaitLink? || pc.Scan? || pc.Missed?
  }

  /** The owner is inside, or was granted and has not looked yet, or its grant is in flight. */
  ghost predicate TokenShape(m: Memory, a: Abs)
    requires a.Held?
  {
    var o := At(m, a.owner.who);
    && (Releasing(o.pc) || o.pc.Waiting?)
    && (Releasing(o.pc) || o.spin.Grant? ==> WordFits(a, o.spin))
    && (o.pc.Waiting? && o.spin.Zero? ==> exists g :: At(m, g).pc.Granting?)
    && (forall g :: At(m, g).pc.Granting? ==>
          && o.pc.Waiting? && o.spin.Zero?
          && At(m, g).pc.to == a.owner.who && At(m, g).pc.word.Grant? && WordFits(a, At(m, g).pc.word))
    && (forall g, h :: At(m, g).pc.Granting? && At(m, h).pc.Granting? ==> g == h)
  }

  /** A candidate is some main[j], j > 0, with the node before it. */
  ghost predicate Candidate(a: Abs, k: nat, best: Option<(Tid, Tid)>)
    requires a.Held?
  {
    best.Some? ==>
      exists j :: 0 < j <= k && j < |a.q.main| && best.value == (a.q.main[j].who, Before(a, j))
  }

  ghost predicate ScannedTo(m: Memory, a: Abs, k: nat, cur: Tid)
    requires a.Held?
  {
    && k < |a.q.main| && a.q.main[k].who == cur
    && forall i :: 0 <= i <= k ==> LinkedAt(m, a, i)
  }

  ghost predicate ScanShape(m: Memory, a: Abs)
    requires a.Held?
  {
    match At(m, a.owner.who).pc
    case AwaitLink => a.q.main != []
    case Scan(cur, last, best) =>
      exists k :: ScannedTo(m, a, k, cur) && last == Before(a, k) && Candidate(a, k, best)
    case Missed(cur, best) =>
      exists k :: ScannedTo(m, a, k, cur) && Candidate(a, k, best)
    case _ => true
  }

  ghost predicate LensFit(m: Memory, a: Abs) {
    forall i :: 0 <= i < |All(a)| ==> At(m, All(a)[i].who).len == All(a)[i].len
  }

  predicate Outside(pc: Pc) { pc.Idle? || pc.Entering? || pc.Granting? }

  ghost predicate Related(m: Memory, a: Abs) {
    && (forall t :: At(m, t).pc.Entering? ==> At(m, t).next.None? && At(m, t).spin.Zero?)
    && (forall t :: !Outside(At(m, t).pc) ==> Member(a, t))
    && (a.Free? ==> m.tail.None? && forall t :: !At(m, t).pc.Granting?)
    && (a.Held? ==>
          && DistinctIds(All(a))
          && LensFit(m, a)
          && MainShape(m, a) && SecShape(m, a) && TokenShape(m, a) && ScanShape(m, a))
  }

  // ----- The choice uta.c makes --------------------------------------------------------

  /** The labels uta.c's release takes: below the batch limit it grants the first node shorter
      than the threshold, lowering the threshold at every hundredth pick; finding none it raises
      the threshold and flushes; at the batch limit it flushes without looking. */
  predicate UtaChoice(m: Memory, t: Tid, l: Label) {
    var n := At(m, t);
    var b, thr := BatchIn(n.spin), m.threshold;
    if n.pc.Scan? && b >= SHORT_BATCH_THRESHOLD then l == Flush(1, thr)
    else if n.pc.Scan? && At(m, n.pc.cur).len < thr then
      l == PickCur(b + 1, AfterPick(thr, b))
    else if n.pc.Scan? then l == Advance(false) || l == EndScan(false)
    else if n.pc.Missed? then l == Flush(1, thr + 1)
    else true
  }
}
