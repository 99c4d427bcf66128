/** What the steps of a run of uxshfl.c do: who takes the lock and when, and what a turn does. */
module ShflSteps {
  import opened TwoQueue
  import opened ShflQueue
  import opened ShflLeaders
  import opened ShflTheorems
  import Shuffle

  // ----- Taking the lock -------------------------------------------------------------------

  /** The fast path takes the lock exactly when the lock byte is free and stealing is enabled;
      otherwise the thread goes on to exchange tail, with a fresh node that carries its flag. */
  lemma FastPathIff(ms: seq<Machine>, acts: seq<Action>, i: nat, t: nat, ux: bool)
    requires IsShuffledRun(ms, acts) && i < |acts| && acts[i] == Base(Steal(t, ux))
    ensures At(ms[i + 1].lock, t, Inside) <==> !ms[i].lock.locked && ms[i].lock.stealing
    ensures At(ms[i + 1].lock, t, Inside) ==> ms[i + 1].lock.locked
    ensures !At(ms[i + 1].lock, t, Inside) ==>
      && t < |ms[i + 1].lock.th| && ms[i + 1].lock.th[t] == Thread(Arriving, None, false, ux)
      && t < |ms[i + 1].marks| && ms[i + 1].marks[t] == Mark(0, false, None, None)
      && ms[i + 1].lock.locked == ms[i].lock.locked
    ensures ms[i + 1].lock.stealing == ms[i].lock.stealing && ms[i + 1].lock.tail == ms[i].lock.tail
  {
    assert PerformsAt(ms, acts, i);
  }

  /** trylock takes the lock exactly when the lock byte is free, and else changes nothing. */
  lemma TrylockIff(ms: seq<Machine>, acts: seq<Action>, i: nat, t: nat)
    requires IsShuffledRun(ms, acts) && i < |acts| && acts[i] == Base(Try(t))
    ensures At(ms[i + 1].lock, t, Inside) <==> !ms[i].lock.locked
    ensures At(ms[i + 1].lock, t, Inside) ==> ms[i + 1].lock.locked
    ensures ms[i].lock.locked ==> ms[i + 1] == ms[i]
  {
    assert PerformsAt(ms, acts, i);
  }

  /** The head takes it exactly when the byte is free. */
  lemma HeadTakesIff(ms: seq<Machine>, acts: seq<Action>, i: nat, t: nat)
    requires IsShuffledRun(ms, acts) && i < |acts| && acts[i] == Base(Take(t))
    ensures At(ms[i + 1].lock, t, Taken) <==> !ms[i].lock.locked
    ensures At(ms[i + 1].lock, t, Taken) ==> ms[i + 1].lock.locked
    ensures ms[i].lock.locked ==> ms[i + 1] == ms[i]
  {
    assert PerformsAt(ms, acts, i);
  }

  /** Step i gives t the lock. */
  predicate TakesLock(ms: seq<Machine>, i: nat, t: nat)
    requires i + 1 < |ms|
  {
    !Holds(ms[i].lock, t) && Holds(ms[i + 1].lock, t)
  }

  /** There is no other way to the lock. */
  lemma WaysToTheLock(ms: seq<Machine>, acts: seq<Action>, i: nat, t: nat)
    requires IsShuffledRun(ms, acts) && i < |acts| && TakesLock(ms, i, t)
    ensures acts[i].Base? && acts[i].a.t == t && (acts[i].a.Steal? || acts[i].a.Try? || acts[i].a.Take?)
  {
    assert PerformsAt(ms, acts, i);
    match acts[i]
    case Base(b) =>
      if b.t != t {
        OthersHold(ms[i].lock, b, t);
      } else {
        HoldersOwn(ms[i].lock, b);
      }
    case _ => TurnKeepsThread(ms[i], acts[i], t);
  }

  /** A step of a turn moves nobody. */
  lemma TurnKeepsThread(m: Machine, a: Action, t: nat)
    requires May(m, a) && !a.Base?
    ensures |Perform(m, a).lock.th| == |m.lock.th|
    ensures Names(m.lock, t) ==> SameBut(m.lock, Perform(m, a).lock, t)
    ensures Holds(Perform(m, a).lock, t) == Holds(m.lock, t)
  {
    if a.Visit? {
      VisitDoes(m, a.t);
      if Relinks(m, a.t) {
        RelinkKeepsThreads(m, a.t);
      }
    }
  }

  lemma HoldersOwn(s: State, b: Label)
    requires Enabled(s, b) && !b.Move? && !Holds(s, b.t) && Holds(Do(s, b), b.t)
    ensures b.Steal? || b.Try? || b.Take?
  {
  }

  /** So while no turn has gone wrong, the queue is in use, its first thread has disabled stealing and
      the race has not happened, nobody gets the lock but the first of the queue, or a trylock. */
  lemma NobodySteals(ms: seq<Machine>, acts: seq<Action>, i: nat, t: nat)
    requires IsShuffledRun(ms, acts) && i < |acts| && GoesWell(ms, acts, i) && TakesLock(ms, i, t)
    requires Announced(ms[i].lock, Line(ms, acts, i)) && !RacedIn(ms, acts, i)
    ensures acts[i] == Base(Try(t)) || (acts[i] == Base(Take(t)) && Line(ms, acts, i)[0] == t)
  {
    WaysToTheLock(ms, acts, i, t);
    StealingIffRaced(ms, acts, i);
    assert PerformsAt(ms, acts, i);
    if acts[i].a.Steal? {
      FastPathIff(ms, acts, i, t, acts[i].a.ux);
    } else if acts[i].a.Take? {
      HeadIsFirst(ms, acts, i, t);
    }
  }

  /** And with nobody queued stealing is enabled, but for the thread that is about to enable it. */
  lemma StealingWhenEmpty(ms: seq<Machine>, acts: seq<Action>, i: nat)
    requires IsShuffledRun(ms, acts) && i < |ms| && GoesWell(ms, acts, i) && Line(ms, acts, i) == []
    ensures ms[i].lock.stealing || Pending(ms[i].lock)
  {
    AlwaysFits(ms, acts, i);
  }

  // ----- Calls -----------------------------------------------------------------------------

  /** In lock, without having it or having handed on the queue. */
  predicate InLock(pc: Pc) {
    !pc.Out? && !pc.Inside?
  }

  /** A call of lock returns only with the lock: whoever has failed on the fast path is not outside
      again before it has been inside; */
  lemma {:induction false} LockReturnsInside(ms: seq<Machine>, acts: seq<Action>, i: nat, j: nat, t: nat)
    requires IsShuffledRun(ms, acts) && i <= j < |ms| && Named(ms[i], t) && InLock(ms[i].lock.th[t].pc)
    requires forall k: nat :: i <= k <= j ==> !At(ms[k].lock, t, Inside)
    ensures Named(ms[j], t) && InLock(ms[j].lock.th[t].pc)
    decreases j
  {
    if i < j {
      LockReturnsInside(ms, acts, i, j - 1, t);
      assert PerformsAt(ms, acts, j - 1);
      StaysInLock(ms[j - 1], acts[j - 1], t);
      assert !At(ms[j].lock, t, Inside);
    }
  }

  lemma StaysInLock(m: Machine, a: Action, t: nat)
    requires May(m, a) && Named(m, t) && InLock(m.lock.th[t].pc)
    ensures Named(Perform(m, a), t)
    ensures InLock(Perform(m, a).lock.th[t].pc) || Perform(m, a).lock.th[t].pc == Inside
  {
    match a
    case Base(b) => StepStaysInLock(m.lock, b, t);
    case _ => TurnKeepsThread(m, a, t);
  }

  lemma StepStaysInLock(s: State, b: Label, t: nat)
    requires Enabled(s, b) && !b.Move? && Names(s, t) && InLock(s.th[t].pc)
    ensures Names(Do(s, b), t) && (InLock(Do(s, b).th[t].pc) || Do(s, b).th[t].pc == Inside)
  {
  }

  /** and whoever is inside stays there until it releases the lock itself, which frees the byte. */
  lemma InsideUntilRelease(ms: seq<Machine>, acts: seq<Action>, i: nat, t: nat)
    requires IsShuffledRun(ms, acts) && i < |acts| && At(ms[i].lock, t, Inside)
    ensures acts[i] == Base(Release(t)) ==> At(ms[i + 1].lock, t, Out) && !ms[i + 1].lock.locked
    ensures acts[i] != Base(Release(t)) ==> At(ms[i + 1].lock, t, Inside)
  {
    assert PerformsAt(ms, acts, i);
    match acts[i]
    case Base(b) => StepStaysInside(ms[i].lock, b, t);
    case _ => TurnKeepsThread(ms[i], acts[i], t);
  }

  lemma StepStaysInside(s: State, b: Label, t: nat)
    requires Enabled(s, b) && !b.Move? && At(s, t, Inside)
    ensures b == Release(t) ==> At(Do(s, b), t, Out) && !Do(s, b).locked
    ensures b != Release(t) ==> At(Do(s, b), t, Inside)
  {
  }

  // ----- The flag a thread brings ------------------------------------------------------------

  /** The flag of the last call of t before step n, by the steps alone. */
  function CameAsUx(acts: seq<Action>, n: nat, t: nat): bool
    requires n <= |acts|
  {
    if n == 0 then false
    else if acts[n - 1].Base? && acts[n - 1].a.Steal? && acts[n - 1].a.t == t then acts[n - 1].a.ux
    else CameAsUx(acts, n - 1, t)
  }

  lemma OutAtFirst(ms: seq<Machine>, acts: seq<Action>, t: nat)
    requires IsShuffledRun(ms, acts)
    ensures Names(ms[0].lock, t) ==> At(ms[0].lock, t, Out)
  {
  }

  /** A thread in lock carries the flag it came with. */
  lemma {:induction false} FlagIsBrought(ms: seq<Machine>, acts: seq<Action>, n: nat, t: nat)
    requires IsShuffledRun(ms, acts) && n < |ms| && Named(ms[n], t) && InLock(ms[n].lock.th[t].pc)
    ensures ms[n].lock.th[t].ux == CameAsUx(acts, n, t)
  {
    if n == 0 {
      OutAtFirst(ms, acts, t);
    } else {
      assert PerformsAt(ms, acts, n - 1);
      FlagStays(ms[n - 1], acts[n - 1], t);
      if InLock(ms[n - 1].lock.th[t].pc) {
        FlagIsBrought(ms, acts, n - 1, t);
      }
    }
  }

  lemma FlagStays(m: Machine, a: Action, t: nat)
    requires May(m, a) && t < |Perform(m, a).lock.th| && InLock(Perform(m, a).lock.th[t].pc)
    requires Named(Perform(m, a), t)
    ensures Named(m, t)
    ensures if a.Base? && a.a.Steal? && a.a.t == t then Perform(m, a).lock.th[t].ux == a.a.ux
            else InLock(m.lock.th[t].pc) && Perform(m, a).lock.th[t].ux == m.lock.th[t].ux
  {
    match a
    case Base(b) => StepKeepsFlag(m.lock, b, t);
    case _ => TurnKeepsThread(m, a, t);
  }

  lemma StepKeepsFlag(s: State, b: Label, t: nat)
    requires Enabled(s, b) && !b.Move? && t < |Do(s, b).th| && InLock(Do(s, b).th[t].pc)
    ensures t < |s.th|
    ensures if b.Steal? && b.t == t then Do(s, b).th[t].ux == b.ux
            else InLock(s.th[t].pc) && Do(s, b).th[t].ux == s.th[t].ux
  {
  }

  /** The order of service, by the flags the threads came with. */
  lemma ServedInClassOrderAsCame(ms: seq<Machine>, acts: seq<Action>, i: nat, x: nat, t: nat)
    requires IsShuffledRun(ms, acts) && i < |ms| && GoesWell(ms, acts, i)
    requires At(ms[i].lock, t, Heading) || At(ms[i].lock, t, Taken)
    requires Before(Came(ms, acts, i), x, t)
    ensures CameAsUx(acts, i, t) && !CameAsUx(acts, i, x)
  {
    ServedInClassOrder(ms, acts, i, x, t);
    AlwaysFits(ms, acts, i);
    QueuedIsInLock(ms, acts, i, x);
    QueuedIsInLock(ms, acts, i, t);
    FlagIsBrought(ms, acts, i, x);
    FlagIsBrought(ms, acts, i, t);
  }

  lemma QueuedIsInLock(ms: seq<Machine>, acts: seq<Action>, i: nat, x: nat)
    requires IsShuffledRun(ms, acts) && i < |ms| && GoesWell(ms, acts, i) && x in Came(ms, acts, i)
    ensures Named(ms[i], x) && InLock(ms[i].lock.th[x].pc)
  {
    AlwaysFits(ms, acts, i);
    var q := Line(ms, acts, i);
    assert x in q;
    var j: nat :| j < |q| && q[j] == x;
    assert Place(ms[i].lock, q, j);
    var k: nat, at: nat, v: nat :| Baton(ms[i], q, k, at, v);
    assert MarkAt(ms[i], q, k, at, j);
  }

  // ----- Turns -------------------------------------------------------------------------------

  /** The turn of t has ended: the thread moved last, or t again, is to go on from prev. */
  predicate HandsOver(m: Machine, m': Machine, t: nat)
    requires InTurn(m, t)
  {
    var p := m.marks[t].turn.value;
    && m'.lock == m.lock && Named(m', t) && Named(m', p.last)
    && m'.marks[t].turn == None && m'.marks[p.last].sleader
    && (p.prev != p.last ==> m'.marks[p.last].lastVisited == Some(p.prev))
    && (p.prev == p.last ==> m'.marks[p.last].lastVisited == m.marks[p.last].lastVisited)
  }

  /** The turn goes on, with these locals. */
  predicate GoesOnWith(m': Machine, t: nat, p: Turn) {
    Named(m', t) && m'.marks[t].turn == Some(p)
  }

  /** Places in the queue of a turn: its leader, the thread moved last, and the one visited last. */
  ghost predicate Spans(m: Machine, q: seq<nat>, t: nat, at: nat, l: nat, v: nat) {
    && at <= l <= v < |q| && q[at] == t && InTurn(m, t)
    && m.marks[t].turn.value.last == q[l] && m.marks[t].turn.value.prev == q[v]
    && (forall x: nat :: at < x <= l ==> WaitsAs(m.lock, q[x], true))
    && (forall x: nat :: l < x <= v ==> WaitsAs(m.lock, q[x], false))
  }

  lemma {:induction false} SpansOf(ms: seq<Machine>, acts: seq<Action>, i: nat, t: nat)
    returns (at: nat, l: nat, v: nat)
    requires IsShuffledRun(ms, acts) && i < |ms| && GoesWell(ms, acts, i) && InTurn(ms[i], t)
    ensures Spans(ms[i], Line(ms, acts, i), t, at, l, v)
    ensures var q, curr := Line(ms, acts, i), ms[i].marks[t].turn.value.curr;
      curr.Some? ==> v + 1 < |q| && curr == Some(q[v + 1])
  {
    AlwaysFits(ms, acts, i);
    var q := Line(ms, acts, i);
    var k: nat;
    k, at, v :| Baton(ms[i], q, k, at, v);
    InTurnLeads(ms[i], t, q, k, at, v);
    l := k - 1;
  }

  /** Who may begin a turn: whoever waits and was appointed, and the first of the queue if it was
      appointed or never counted, unless a turn of theirs is under way. */
  lemma MayBeginIff(ms: seq<Machine>, acts: seq<Action>, i: nat, t: nat)
    requires IsShuffledRun(ms, acts) && i < |ms| && GoesWell(ms, acts, i) && Named(ms[i], t)
    ensures var pc, me := ms[i].lock.th[t].pc, ms[i].marks[t];
      May(ms[i], Begin(t)) <==>
        && me.turn == None
        && ((me.sleader && (pc == Waiting || pc == Heading)) || (me.wcount == 0 && pc == Heading))
  {
    AlwaysFits(ms, acts, i);
    var m, q := ms[i], Line(ms, acts, i);
    var n := PlaceOf(m.lock, q, t);
    var k: nat, at: nat, v: nat :| Baton(m, q, k, at, v);
    if n < |q| {
      LinkIs(m.lock, q, n);
      assert n + 1 < |q| ==> MarkAt(m, q, k, at, n + 1);
    }
  }

  /** A leader that has moved fewer than fifty begins where the turn before it stopped; past that, the
      next in line is appointed instead, from scratch. */
  ghost predicate Begun(m: Machine, m': Machine, q: seq<nat>, t: nat, at: nat, v: nat) {
    && at <= v < |q| && q[at] == t && Named(m, t) && Named(m', t) && m'.lock == m.lock
    && m.marks[t].lastVisited == (if v == at then None else Some(q[v]))
    && !m'.marks[t].sleader
    && (m.marks[t].wcount < 50 ==>
          GoesOnWith(m', t, Turn(t, q[v], None, if m.marks[t].wcount == 0 then 1 else m.marks[t].wcount)))
    && (m.marks[t].wcount >= 50 ==>
          m'.marks[t].turn == None && (m.lock.th[t].next.Some? ==> at + 1 < |q| && AppointsNext(m, m', t, q[at + 1])))
  }

  predicate AppointsNext(m: Machine, m': Machine, t: nat, x: nat) {
    && Named(m, t) && Named(m', x) && m.lock.th[t].next == Some(x)
    && m'.marks[x].sleader && m'.marks[x].lastVisited == None
  }

  lemma {:induction false} OnBegin(ms: seq<Machine>, acts: seq<Action>, i: nat, t: nat) returns (at: nat, v: nat)
    requires IsShuffledRun(ms, acts) && i < |acts| && GoesWell(ms, acts, i) && acts[i] == Begin(t)
    ensures Begun(ms[i], ms[i + 1], Line(ms, acts, i), t, at, v)
  {
    AlwaysFits(ms, acts, i);
    assert PerformsAt(ms, acts, i);
    var q := Line(ms, acts, i);
    var k: nat, w: nat;
    k, at, w :| Baton(ms[i], q, k, at, w);
    at := BeginIsLeader(ms[i], t, q, k, at, w);
    v := if ms[i].marks[t].lastVisited.None? then at else w;
    LinkIs(ms[i].lock, q, at);
    assert at + 1 < |q| ==> q[at] != q[at + 1];
  }

  /** A look finds the thread behind prev, or ends the turn if there is none. */
  ghost predicate Looked(m: Machine, m': Machine, q: seq<nat>, t: nat, at: nat, l: nat, v: nat) {
    && Spans(m, q, t, at, l, v) && Names(m.lock, q[v])
    && if v + 1 < |q| && m.lock.th[q[v]].next.Some? then
         m'.lock == m.lock && GoesOnWith(m', t, m.marks[t].turn.value.(curr := Some(q[v + 1])))
       else HandsOver(m, m', t)
  }

  lemma {:induction false} OnLook(ms: seq<Machine>, acts: seq<Action>, i: nat, t: nat)
    returns (at: nat, l: nat, v: nat)
    requires IsShuffledRun(ms, acts) && i < |acts| && GoesWell(ms, acts, i) && acts[i] == Look(t)
    ensures Looked(ms[i], ms[i + 1], Line(ms, acts, i), t, at, l, v)
  {
    assert PerformsAt(ms, acts, i);
    at, l, v := SpansOf(ms, acts, i, t);
    AlwaysFits(ms, acts, i);
    LinkIs(ms[i].lock, Line(ms, acts, i), v);
    EndHandsOver(ms[i], t);
  }

  lemma EndHandsOver(m: Machine, t: nat)
    requires InTurn(m, t)
    ensures HandsOver(m, End(m, t), t)
  {
  }

  /** A visit of the thread behind prev. The last of the queue, and a ux thread behind others whose
      link is not there yet, end the turn. Else a ux thread is counted, moves up right behind the
      thread moved last, past all others visited, and is the one moved last; and any other is passed. */
  ghost predicate HasVisited(m: Machine, m': Machine, q: seq<nat>, q': seq<nat>, t: nat, l: nat, v: nat) {
    && InTurn(m, t) && l <= v && v + 1 < |q| && Names(m.lock, q[v]) && Names(m.lock, q[v + 1]) && Named(m', q[v + 1])
    && var p, c := m.marks[t].turn.value, q[v + 1];
       if v + 2 == |q| || (m.lock.th[c].ux && !m.lock.th[q[v]].ux && m.lock.th[c].next.None?) then
         HandsOver(m, m', t) && q' == q
       else if !m.lock.th[c].ux then
         GoesOnWith(m', t, Turn(p.last, c, None, p.count)) && q' == q
       else
         && GoesOnWith(m', t, Turn(c, if l == v then c else p.prev, None, p.count + 1))
         && m'.marks[c].wcount == p.count + 1
         && q' == q[..l + 1] + [c] + q[l + 1..v + 1] + q[v + 2..]
  }

  lemma {:induction false} OnVisit(ms: seq<Machine>, acts: seq<Action>, i: nat, t: nat)
    returns (at: nat, l: nat, v: nat)
    requires IsShuffledRun(ms, acts) && i < |acts| && GoesWell(ms, acts, i) && acts[i] == Visit(t)
    requires !Bad(ms[i], acts[i])
    ensures Spans(ms[i], Line(ms, acts, i), t, at, l, v)
    ensures v + 1 < |Line(ms, acts, i)| && ms[i].marks[t].turn.value.curr == Some(Line(ms, acts, i)[v + 1])
    ensures HasVisited(ms[i], ms[i + 1], Line(ms, acts, i), Line(ms, acts, i + 1), t, l, v)
  {
    assert PerformsAt(ms, acts, i);
    AlwaysFits(ms, acts, i);
    at, l, v := OnVisitIn(ms[i], t, Line(ms, acts, i));
  }

  lemma {:induction false} OnVisitIn(m: Machine, t: nat, q: seq<nat>) returns (at: nat, l: nat, v: nat)
    requires Shape(m.lock, q) && HasBaton(m, q) && Few(m) && May(m, Visit(t)) && !Bad(m, Visit(t))
    ensures Spans(m, q, t, at, l, v) && v + 1 < |q| && m.marks[t].turn.value.curr == Some(q[v + 1])
    ensures HasVisited(m, Perform(m, Visit(t)), q, LineAfter(m, Visit(t), q), t, l, v)
  {
    var k: nat;
    k, at, v :| Baton(m, q, k, at, v);
    InTurnLeads(m, t, q, k, at, v);
    l := k - 1;
    CountFits(m, t, q, k, at, v);
    TailIsLast(m.lock, q, v + 1);
    OnVisitAt(m, t, q, k, at, v);
  }

  lemma TailIsLast(s: State, q: seq<nat>, x: nat)
    requires Shape(s, q) && x < |q|
    ensures s.tail == Some(q[x]) <==> x + 1 == |q|
  {
    assert x + 1 < |q| ==> q[x] != q[|q| - 1];
  }

  lemma OnVisitAt(m: Machine, t: nat, q: seq<nat>, k: nat, at: nat, v: nat)
    requires Shape(m.lock, q) && Baton(m, q, k, at, v) && Few(m) && May(m, Visit(t)) && !Bad(m, Visit(t))
    requires at < |q| && q[at] == t && Turning(m, q, k, at, v, m.marks[t].turn.value)
    requires v + 1 < |q| && (m.lock.tail == Some(q[v + 1]) <==> v + 2 == |q|)
    requires 0 < m.marks[t].turn.value.count + 1 < 0x1_0000
    ensures HasVisited(m, Perform(m, Visit(t)), q, LineAfter(m, Visit(t), q), t, k - 1, v)
  {
    var c := q[v + 1];
    assert c != t;
    assert v > k - 1 ==> WaitsAs(m.lock, q[v], false);
    EndHandsOver(m, t);
    if Relinks(m, t) {
      RelinkMovesUp(m, t, q, k, at, v);
    } else if Adjoins(m, t) {
      assert q == q[..k] + [c] + q[k..v + 1] + q[v + 2..];
    }
  }

  lemma RelinkMovesUp(m: Machine, t: nat, q: seq<nat>, k: nat, at: nat, v: nat)
    requires Shape(m.lock, q) && Baton(m, q, k, at, v) && Few(m) && May(m, Visit(t)) && !Bad(m, Visit(t))
    requires at < |q| && q[at] == t && Turning(m, q, k, at, v, m.marks[t].turn.value) && Relinks(m, t)
    ensures at < k <= v < v + 2 < |q|
    ensures LineAfter(m, Visit(t), q) == q[..k] + [q[v + 1]] + q[k..v + 1] + q[v + 2..]
  {
    RelinkIs(m, Perform(m, Visit(t)), t, q, k, at, v);
  }

  /** A leader is told to stop only when the lock is free, or it is first itself, and only if somebody
      was moved; then it hands over. */
  lemma OnStop(ms: seq<Machine>, acts: seq<Action>, i: nat, t: nat)
    requires IsShuffledRun(ms, acts) && i < |acts| && acts[i] == Stop(t)
    ensures InTurn(ms[i], t) && HandsOver(ms[i], ms[i + 1], t) && ms[i].marks[t].turn.value.last != t
    ensures !ms[i].lock.locked || ms[i].lock.th[t].first
  {
    assert PerformsAt(ms, acts, i);
    EndHandsOver(ms[i], t);
  }
}
