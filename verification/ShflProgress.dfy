/** No interleaving of uxshfl.c gets stuck, unless a turn goes wrong. */
module ShflProgress {
  import opened TwoQueue
  import opened ShflQueue
  import opened ShflLeaders
  import opened ShflTheorems
  import Shuffle

  /** A step of a turn, or of a thread that is in the queue or has the lock; nobody arrives. */
  predicate HelpsOn(a: Action) {
    if a.Base? then Helps(a.a) else a.Look? || a.Visit?
  }

  /** The first leaves the queue, or a turn goes wrong. */
  predicate Serves(m: Machine, a: Action) {
    (a.Base? && Leaves(m.lock, a.a)) || Bad(m, a)
  }

  /** At most n such steps, well chosen, come to that. */
  ghost predicate CanServe(m: Machine, n: nat)
    decreases n, 1
  {
    exists a :: CanServeBy(m, a, n)
  }

  ghost predicate CanServeBy(m: Machine, a: Action, n: nat)
    decreases n, 0
  {
    && n > 0 && HelpsOn(a) && May(m, a)
    && (Serves(m, a) || CanServe(Perform(m, a), n - 1))
  }

  lemma ServesBy(m: Machine, a: Action, n: nat)
    requires n > 0 && HelpsOn(a) && May(m, a) && (Serves(m, a) || CanServe(Perform(m, a), n - 1))
    ensures CanServe(m, n)
  {
    assert CanServeBy(m, a, n);
  }

  /** The first is not in a turn, so no thread that can take a step of the lock is. */
  lemma OthersAreFree(m: Machine, b: Label, q: seq<nat>, k: nat, at: nat, v: nat)
    requires Shape(m.lock, q) && Baton(m, q, k, at, v) && Enabled(m.lock, b) && Helps(b)
    requires q != [] && (at == 0 ==> m.marks[q[0]].turn.None?)
    ensures May(m, Base(b))
  {
    var n := PlaceOf(m.lock, q, b.t);
    if n < |q| {
      assert MarkAt(m, q, k, at, n);
    } else {
      assert Apart(m, b.t);
    }
  }

  /** Then the lock goes on as if nobody shuffled. */
  lemma {:induction false} LockGoesOn(m: Machine, q: seq<nat>, k: nat, at: nat, v: nat, n: nat)
    requires Orderly(m.lock, q) && Baton(m, q, k, at, v) && (at == 0 ==> m.marks[q[0]].turn.None?)
    requires CanLeave(m.lock, n)
    ensures CanServe(m, n)
    decreases n
  {
    var b :| Helps(b) && Enabled(m.lock, b) && (Leaves(m.lock, b) || CanLeave(Do(m.lock, b), n - 1));
    OthersAreFree(m, b, q, k, at, v);
    if !Leaves(m.lock, b) {
      StepKeepsOrderly(m.lock, b, q);
      BaseKeepsMarks(m, b, q);
      assert Names(m.lock, q[0]) && MarkAt(m, q, k, at, 0);
      QuietKeepsBaton(m, b, q, k, at, v);
      LockGoesOn(Perform(m, Base(b)), q, k, at, v, n - 1);
    }
    ServesBy(m, Base(b), n);
  }

  /** With the first out of its turn, nine steps are enough. */
  lemma FirstGoesOn(m: Machine, q: seq<nat>, k: nat, at: nat, v: nat, n: nat)
    requires Orderly(m.lock, q) && Baton(m, q, k, at, v) && (at == 0 ==> m.marks[q[0]].turn.None?) && n >= 9
    ensures CanServe(m, n)
  {
    assert Place(m.lock, q, 0);
    FirstLeaves(m.lock, q, n);
    LockGoesOn(m, q, k, at, v, n);
  }

  /** The first when its turn has ended. */
  ghost predicate FirstIsFree(m: Machine, q: seq<nat>) {
    exists k: nat, at: nat, v: nat ::
      Baton(m, q, k, at, v) && q != [] && Named(m, q[0]) && (at == 0 ==> m.marks[q[0]].turn.None?)
  }

  /** The first in a turn that has come to q[v], and is about to look on. */
  ghost predicate GoesOn(m: Machine, q: seq<nat>, v: nat) {
    exists k: nat :: Baton(m, q, k, 0, v) && v < |q| && InTurn(m, q[0]) && m.marks[q[0]].turn.value.curr.None?
  }

  lemma FreeServes(m: Machine, q: seq<nat>, n: nat)
    requires Orderly(m.lock, q) && FirstIsFree(m, q) && n >= 9
    ensures CanServe(m, n)
  {
    var k: nat, at: nat, v: nat :|
      Baton(m, q, k, at, v) && q != [] && Named(m, q[0]) && (at == 0 ==> m.marks[q[0]].turn.None?);
    FirstGoesOn(m, q, k, at, v, n);
  }

  lemma EndIsFree(m: Machine, q: seq<nat>, k: nat, v: nat)
    requires Shape(m.lock, q) && Baton(m, q, k, 0, v) && q != [] && InTurn(m, q[0])
    ensures FirstIsFree(End(m, q[0]), q)
  {
    InTurnLeads(m, q[0], q, k, 0, v);
    var at := TurnEnds(m, q[0], q, k, 0, v);
  }

  /** A look finds somebody to visit, or ends the turn. */
  lemma {:induction false} LookGoesOn(m: Machine, q: seq<nat>, k: nat, v: nat)
    requires Shape(m.lock, q) && Baton(m, q, k, 0, v) && q != [] && May(m, Look(q[0]))
    ensures var m' := Perform(m, Look(q[0]));
      FirstIsFree(m', q) || (v + 1 < |q| && Baton(m', q, k, 0, v) && May(m', Visit(q[0])))
  {
    InTurnLeads(m, q[0], q, k, 0, v);
    if m.lock.th[m.marks[q[0]].turn.value.prev].next.Some? {
      TurnLooks(m, q[0], q, k, 0, v);
      var m' := Perform(m, Look(q[0]));
      InTurnNames(m', q, k, v);
      InTurnLeads(m', q[0], q, k, 0, v);
    } else {
      EndIsFree(m, q, k, v);
    }
  }

  lemma InTurnNames(m: Machine, q: seq<nat>, k: nat, v: nat)
    requires Baton(m, q, k, 0, v) && q != [] && Named(m, q[0]) && m.marks[q[0]].turn.Some?
    ensures InTurn(m, q[0])
  {
    var p := m.marks[q[0]].turn.value;
    assert Turning(m, q, k, 0, v, p);
    assert MarkAt(m, q, k, 0, k - 1) && MarkAt(m, q, k, 0, v);
    assert v + 1 < |q| ==> MarkAt(m, q, k, 0, v + 1);
  }

  lemma RelinkGoesOn(m: Machine, q: seq<nat>, k: nat, v: nat)
    requires Shape(m.lock, q) && Baton(m, q, k, 0, v) && Few(m)
    requires q != [] && May(m, Visit(q[0])) && !Bad(m, Visit(q[0])) && Relinks(m, q[0])
    ensures var q' := LineAfter(m, Visit(q[0]), q);
      |q'| == |q| && q'[0] == q[0] && GoesOn(Perform(m, Visit(q[0])), q', v + 1)
  {
    RelinkIs(m, Perform(m, Visit(q[0])), q[0], q, k, 0, v);
    InTurnLeads(m, q[0], q, k, 0, v);
    RelinkLooksOn(m, q[0]);
    RelinkedGoesOn(Perform(m, Visit(q[0])), q, k, v);
  }

  lemma RelinkLooksOn(m: Machine, t: nat)
    requires May(m, Visit(t)) && Relinks(m, t)
    ensures var m' := Perform(m, Visit(t));
      Named(m', t) && m'.marks[t].turn.Some? && m'.marks[t].turn.value.curr.None?
  {
  }

  lemma RelinkedGoesOn(m': Machine, q: seq<nat>, k: nat, v: nat)
    requires 0 < k <= v < v + 2 < |q| && Baton(m', Shuffle.Moved(q, k - 1, v), k + 1, 0, v + 1)
    requires Named(m', q[0]) && m'.marks[q[0]].turn.Some? && m'.marks[q[0]].turn.value.curr.None?
    ensures var q' := Shuffle.Moved(q, k - 1, v); |q'| == |q| && q'[0] == q[0] && GoesOn(m', q', v + 1)
  {
    var q', k' := Shuffle.Moved(q, k - 1, v), k + 1;
    Shuffle.MovedAt(q, k - 1, v, 0);
    InTurnNames(m', q', k', v + 1);
  }

  /** A visit comes one place further, or ends the turn. */
  lemma {:induction false} VisitGoesOn(m: Machine, q: seq<nat>, k: nat, v: nat)
    requires Shape(m.lock, q) && Baton(m, q, k, 0, v) && Few(m)
    requires q != [] && May(m, Visit(q[0])) && !Bad(m, Visit(q[0]))
    ensures var m', q' := Perform(m, Visit(q[0])), LineAfter(m, Visit(q[0]), q);
      |q'| == |q| && q'[0] == q[0] && (FirstIsFree(m', q') || GoesOn(m', q', v + 1))
  {
    var t := q[0];
    var m', k' := Perform(m, Visit(t)), k + 1;
    VisitDoes(m, t);
    if Relinks(m, t) {
      RelinkGoesOn(m, q, k, v);
    } else if Passes(m, t) {
      TurnPasses(m, t, q, k, 0, v);
      InTurnNames(m', q, k, v + 1);
    } else if Adjoins(m, t) {
      TurnAdjoins(m, t, q, k, 0, v);
      InTurnNames(m', q, k', v + 1);
    } else {
      EndIsFree(m, q, k, v);
    }
  }

  /** A step of a turn keeps the queue in order. */
  lemma TurnKeepsOrderly(m: Machine, a: Action, q: seq<nat>, k: nat, at: nat, v: nat)
    requires Orderly(m.lock, q) && Baton(m, q, k, at, v) && Few(m) && May(m, a) && !a.Base? && !Bad(m, a)
    ensures Orderly(Perform(m, a).lock, LineAfter(m, a, q))
  {
    var b := StepKeepsBaton(m, a, q, k, at, v);
    if b.Some? {
      StepKeepsShape(m.lock, b.value, q);
      StepKeepsExclusive(m.lock, b.value);
      MoveKeepsShape(m.lock, b.value, q);
      forall t: nat ensures Informed(Do(m.lock, b.value), t) {
        StepKeepsInformed(m.lock, b.value, q, t);
      }
    }
  }

  /** The turn of the first: twice as many steps as it can still visit, and nine. */
  lemma {:induction false} TurnGoesOn(m: Machine, q: seq<nat>, v: nat, n: nat)
    requires Orderly(m.lock, q) && Few(m) && GoesOn(m, q, v) && n >= 2 * (|q| - 1 - v) + 10
    ensures CanServe(m, n)
    decreases n, 0
  {
    var k: nat :| Baton(m, q, k, 0, v) && v < |q| && InTurn(m, q[0]) && m.marks[q[0]].turn.value.curr.None?;
    var m' := Perform(m, Look(q[0]));
    LookGoesOn(m, q, k, v);
    TurnKeepsOrderly(m, Look(q[0]), q, k, 0, v);
    if FirstIsFree(m', q) {
      FreeServes(m', q, n - 1);
    } else {
      VisitServes(m', q, k, v, n - 1);
    }
    ServesBy(m, Look(q[0]), n);
  }

  lemma {:induction false} VisitServes(m: Machine, q: seq<nat>, k: nat, v: nat, n: nat)
    requires Orderly(m.lock, q) && Few(m) && Baton(m, q, k, 0, v) && May(m, Visit(q[0]))
    requires v + 1 < |q| && n >= 2 * (|q| - 1 - v) + 9
    ensures CanServe(m, n)
    decreases n, 1
  {
    var a := Visit(q[0]);
    if !Bad(m, a) {
      VisitGoesOn(m, q, k, v);
      TurnKeepsOrderly(m, a, q, k, 0, v);
      SameThreadsAfter(m, a);
      if FirstIsFree(Perform(m, a), LineAfter(m, a, q)) {
        FreeServes(Perform(m, a), LineAfter(m, a, q), n - 1);
      } else {
        TurnGoesOn(Perform(m, a), LineAfter(m, a, q), v + 1, n - 1);
      }
    }
    ServesBy(m, a, n);
  }

  /** No interleaving gets stuck: with anybody queued, 2 * |queue| + 8 steps let the first take the
      lock and hand the head of the queue on, or come to a turn that goes wrong. A first in the middle
      of a turn does not look at the lock before it has come to the end of the list, or moved
      somebody. */
  lemma NeverStuck(ms: seq<Machine>, acts: seq<Action>, i: nat, n: nat)
    requires IsShuffledRun(ms, acts) && i < |ms| && GoesWell(ms, acts, i)
    requires Line(ms, acts, i) != [] && n >= 2 * |Line(ms, acts, i)| + 8
    ensures CanServe(ms[i], n)
  {
    AlwaysFits(ms, acts, i);
    AlwaysExclusive(ms, acts, i);
    FirstServes(ms[i], Line(ms, acts, i), n);
  }

  lemma FirstServes(m: Machine, q: seq<nat>, n: nat)
    requires Orderly(m.lock, q) && HasBaton(m, q) && Few(m) && n >= 2 * |q| + 8
    ensures CanServe(m, n)
  {
    var k: nat, at: nat, v: nat :| Baton(m, q, k, at, v);
    assert MarkAt(m, q, k, at, 0);
    if m.marks[q[0]].turn.None? {
      assert FirstIsFree(m, q);
      FreeServes(m, q, n);
    } else {
      InTurnNames(m, q, k, v);
      InTurnLeads(m, q[0], q, k, 0, v);
      if m.marks[q[0]].turn.value.curr.None? {
        TurnGoesOn(m, q, v, n);
      } else {
        VisitServes(m, q, k, v, n);
      }
    }
  }
}
