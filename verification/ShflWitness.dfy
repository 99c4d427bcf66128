/** Two executions of uxshfl.c: one that loses a thread, and one that lets a newcomer steal the lock. */
module ShflWitness {
  import opened TwoQueue
  import opened ShflQueue
  import opened ShflLeaders
  import opened ShflTheorems

  // ----- The turn that goes wrong ------------------------------------------------------------

  lemma {:induction false} Performs(ms: seq<Machine>, acts: seq<Action>, a: Action, m': Machine)
    returns (ms': seq<Machine>, acts': seq<Action>)
    requires IsShuffledRun(ms, acts) && May(ms[|acts|], a) && Perform(ms[|acts|], a) == m'
    ensures IsShuffledRun(ms', acts') && ms'[|acts'|] == m'
  {
    ms', acts' := ms + [m'], acts + [a];
    forall i: nat | i < |acts'| ensures PerformsAt(ms', acts', i) {
      assert i < |acts| ==> PerformsAt(ms, acts, i);
    }
  }

  /** A step of the lock, which leaves the marks alone. */
  lemma {:induction false} Steps(ms: seq<Machine>, acts: seq<Action>, b: Label, s': State)
    returns (ms': seq<Machine>, acts': seq<Action>)
    requires IsShuffledRun(ms, acts) && !b.Move? && Enabled(ms[|acts|].lock, b) && Do(ms[|acts|].lock, b) == s'
    requires b.t < |ms[|acts|].marks| && ms[|acts|].marks[b.t].turn == None
    requires b.Steal? ==> ms[|acts|].marks[b.t] == NO_MARK
    ensures IsShuffledRun(ms', acts') && ms'[|acts'|] == Machine(s', ms[|acts|].marks)
  {
    ms', acts' := Performs(ms, acts, Base(b), Machine(s', ms[|acts|].marks));
  }

  const NO_MARK := Mark(0, false, None, None)

  const NO_MARKS := [NO_MARK, NO_MARK, NO_MARK, NO_MARK]

  /** Four threads. */
  function Four(locked: bool, stealing: bool, tail: Option<nat>, a: Thread, b: Thread, c: Thread, d: Thread): State {
    State(locked, stealing, tail, [a, b, c, d])
  }

  function Is(pc: Pc, next: Option<nat>): Thread { Thread(pc, next, false, false) }

  function Ux(pc: Pc, next: Option<nat>): Thread { Thread(pc, next, false, true) }

  lemma {:induction false} OneComes() returns (ms: seq<Machine>, acts: seq<Action>)
    ensures IsShuffledRun(ms, acts)
    ensures ms[|acts|]
            == Machine(Four(true, false, Some(1), Is(Inside, None), Is(Heading, None), Is(Out, None), Is(Out, None)),
                       NO_MARKS)
  {
    var out, ins := Is(Out, None), Is(Inside, None);
    ms, acts := [Machine(Four(false, true, None, out, out, out, out), NO_MARKS)], [];
    ms, acts := Steps(ms, acts, Steal(0, false), Four(true, true, None, ins, out, out, out));
    ms, acts := Steps(ms, acts, Steal(1, false), Four(true, true, None, ins, Is(Arriving, None), out, out));
    ms, acts := Steps(ms, acts, Exchange(1), Four(true, true, Some(1), ins, Is(Announcing, None), out, out));
    ms, acts := Steps(ms, acts, Announce(1), Four(true, false, Some(1), ins, Is(Heading, None), out, out));
  }

  lemma {:induction false} TwoCome() returns (ms: seq<Machine>, acts: seq<Action>)
    ensures IsShuffledRun(ms, acts)
    ensures ms[|acts|]
            == Machine(
                 Four(true, false, Some(2), Is(Inside, None), Is(Heading, Some(2)), Ux(Waiting, None), Is(Out, None)),
                 NO_MARKS)
  {
    ms, acts := OneComes();
    var out, ins, head := Is(Out, None), Is(Inside, None), Is(Heading, None);
    ms, acts := Steps(ms, acts, Steal(2, true), Four(true, false, Some(1), ins, head, Ux(Arriving, None), out));
    ms, acts := Steps(ms, acts, Exchange(2), Four(true, false, Some(2), ins, head, Ux(Linking(1), None), out));
    ms, acts := Steps(ms, acts, Link(2), Four(true, false, Some(2), ins, Is(Heading, Some(2)), Ux(Waiting, None), out));
  }

  /** Thread 0 has the lock, and 1, 2, 3 have come in this order; 2 is a ux thread. */
  function InLine(first: Thread, second: Thread): State {
    Four(true, false, Some(3), Is(Inside, None), first, second, Is(Waiting, None))
  }

  lemma {:induction false} ThreeCome() returns (ms: seq<Machine>, acts: seq<Action>)
    ensures IsShuffledRun(ms, acts)
    ensures ms[|acts|] == Machine(InLine(Is(Heading, Some(2)), Ux(Waiting, Some(3))), NO_MARKS)
  {
    ms, acts := TwoCome();
    var ins, head := Is(Inside, None), Is(Heading, Some(2));
    ms, acts := Steps(ms, acts, Steal(3, false),
      Four(true, false, Some(2), ins, head, Ux(Waiting, None), Is(Arriving, None)));
    ms, acts := Steps(ms, acts, Exchange(3),
      Four(true, false, Some(3), ins, head, Ux(Waiting, None), Is(Linking(2), None)));
    ms, acts := Steps(ms, acts, Link(3),
      Four(true, false, Some(3), ins, head, Ux(Waiting, Some(3)), Is(Waiting, None)));
  }

  function Marked(b: Mark, c: Mark): seq<Mark> { [NO_MARK, b, c, NO_MARK] }

  /** What thread 1 does, after the first turn of the loop. */
  lemma {:induction false} OneBegins() returns (ms: seq<Machine>, acts: seq<Action>)
    ensures IsShuffledRun(ms, acts)
    ensures ms[|acts|] == Machine(InLine(Is(Heading, Some(2)), Ux(Waiting, Some(3))),
                                  Marked(Mark(1, false, None, Some(Turn(2, 1, None, 2))), Mark(2, false, None, None)))
  {
    ms, acts := ThreeCome();
    var s := InLine(Is(Heading, Some(2)), Ux(Waiting, Some(3)));
    ms, acts := Performs(ms, acts, Begin(1),
      Machine(s, Marked(Mark(1, false, None, Some(Turn(1, 1, None, 1))), NO_MARK)));
    ms, acts := Performs(ms, acts, Look(1),
      Machine(s, Marked(Mark(1, false, None, Some(Turn(1, 1, Some(2), 1))), NO_MARK)));
    ms, acts := Performs(ms, acts, Visit(1),
      Machine(s, Marked(Mark(1, false, None, Some(Turn(2, 1, None, 2))), Mark(2, false, None, None))));
  }

  const SHUFFLED := Marked(Mark(1, false, None, None), Mark(3, true, Some(1), None))

  /** The second turn links thread 2 to itself. */
  lemma {:induction false} OneShuffles() returns (ms: seq<Machine>, acts: seq<Action>)
    ensures IsShuffledRun(ms, acts)
    ensures ms[|acts|] == Machine(InLine(Is(Heading, Some(3)), Ux(Waiting, Some(2))), SHUFFLED)
  {
    ms, acts := OneBegins();
    var s := InLine(Is(Heading, Some(2)), Ux(Waiting, Some(3)));
    var s' := InLine(Is(Heading, Some(3)), Ux(Waiting, Some(2)));
    ms, acts := Performs(ms, acts, Look(1),
      Machine(s, Marked(Mark(1, false, None, Some(Turn(2, 1, Some(2), 2))), Mark(2, false, None, None))));
    ms, acts := Performs(ms, acts, Visit(1),
      Machine(s', Marked(Mark(1, false, None, Some(Turn(2, 1, None, 3))), Mark(3, false, None, None))));
    ms, acts := Performs(ms, acts, Look(1),
      Machine(s', Marked(Mark(1, false, None, Some(Turn(2, 1, Some(3), 3))), Mark(3, false, None, None))));
    ms, acts := Performs(ms, acts, Visit(1), Machine(s', SHUFFLED));
  }

  /** Thread 1 gets the lock, and 3 is told that it is the first. */
  lemma {:induction false} OneIsServed() returns (ms: seq<Machine>, acts: seq<Action>)
    ensures IsShuffledRun(ms, acts)
    ensures ms[|acts|] == Machine(AfterOne(true, false, Some(3), Is(Inside, Some(3)), Third(Waiting)), SHUFFLED)
  {
    ms, acts := OneShuffles();
    var last := Is(Waiting, None);
    ms, acts := Steps(ms, acts, Release(0), AfterOne(false, false, Some(3), Is(Heading, Some(3)), last));
    ms, acts := Steps(ms, acts, Take(1), AfterOne(true, false, Some(3), Is(Taken, Some(3)), last));
    ms, acts := Steps(ms, acts, Read(1), AfterOne(true, false, Some(3), Is(Passing(3), Some(3)), last));
    ms, acts := Steps(ms, acts, Pass(1), AfterOne(true, false, Some(3), Is(Inside, Some(3)), last.(first := true)));
  }

  /** Thread 0 is gone, and 2 waits. */
  function AfterOne(locked: bool, stealing: bool, tail: Option<nat>, b: Thread, d: Thread): State {
    Four(locked, stealing, tail, Is(Out, None), b, Ux(Waiting, Some(2)), d)
  }

  function Third(pc: Pc): Thread { Thread(pc, None, true, false) }

  lemma {:induction false} ThreeTakes() returns (ms: seq<Machine>, acts: seq<Action>)
    ensures IsShuffledRun(ms, acts)
    ensures ms[|acts|] == Machine(AfterOne(true, false, Some(3), Is(Out, Some(3)), Third(Swinging)), SHUFFLED)
  {
    ms, acts := OneIsServed();
    var one := Is(Out, Some(3));
    ms, acts := Steps(ms, acts, Release(1), AfterOne(false, false, Some(3), one, Third(Waiting)));
    ms, acts := Steps(ms, acts, Observe(3), AfterOne(false, false, Some(3), one, Third(Heading)));
    ms, acts := Steps(ms, acts, Take(3), AfterOne(true, false, Some(3), one, Third(Taken)));
    ms, acts := Steps(ms, acts, Read(3), AfterOne(true, false, Some(3), one, Third(Swinging)));
  }

  /** So four threads are enough to lose one: everybody else has had the lock and is gone, the queue
      is empty, and thread 2 still waits for it. */
  lemma {:induction false} AThreadIsLost() returns (ms: seq<Machine>, acts: seq<Action>)
    ensures IsShuffledRun(ms, acts)
    ensures var s := ms[|acts|].lock;
            && !s.locked && s.tail == None && At(s, 2, Waiting) && !s.th[2].first
            && At(s, 0, Out) && At(s, 1, Out) && At(s, 3, Out)
  {
    ms, acts := ThreeTakes();
    var one := Is(Out, Some(3));
    ms, acts := Steps(ms, acts, Swing(3), AfterOne(true, false, None, one, Third(Reenabling)));
    ms, acts := Steps(ms, acts, Reenable(3), AfterOne(true, true, None, one, Third(Inside)));
    ms, acts := Steps(ms, acts, Release(3), AfterOne(false, true, None, one, Third(Out)));
  }

  // ----- Stealing from a queue in use ----------------------------------------------------------

  const THREE_MARKS := [NO_MARK, NO_MARK, NO_MARK]

  function Three(locked: bool, stealing: bool, tail: Option<nat>, a: Pc, b: Pc, c: Pc): State {
    State(locked, stealing, tail, [Is(a, None), Is(b, None), Is(c, None)])
  }

  /** Thread 0 has the lock, and 1 heads the queue. */
  lemma {:induction false} OneHeads() returns (ms: seq<Machine>, acts: seq<Action>)
    ensures IsShuffledRun(ms, acts)
    ensures ms[|acts|] == Machine(Three(true, false, Some(1), Inside, Heading, Out), THREE_MARKS)
  {
    ms, acts := [Machine(Three(false, true, None, Out, Out, Out), THREE_MARKS)], [];
    ms, acts := Steps(ms, acts, Steal(0, false), Three(true, true, None, Inside, Out, Out));
    ms, acts := Steps(ms, acts, Steal(1, false), Three(true, true, None, Inside, Arriving, Out));
    ms, acts := Steps(ms, acts, Exchange(1), Three(true, true, Some(1), Inside, Announcing, Out));
    ms, acts := Steps(ms, acts, Announce(1), Three(true, false, Some(1), Inside, Heading, Out));
  }

  /** Thread 1 has come through the queue and emptied it, and is about to enable stealing. */
  lemma {:induction false} OneIsAboutToEnable() returns (ms: seq<Machine>, acts: seq<Action>)
    ensures IsShuffledRun(ms, acts)
    ensures ms[|acts|] == Machine(Three(true, false, None, Out, Reenabling, Out), THREE_MARKS)
  {
    ms, acts := OneHeads();
    ms, acts := Steps(ms, acts, Release(0), Three(false, false, Some(1), Out, Heading, Out));
    ms, acts := Steps(ms, acts, Take(1), Three(true, false, Some(1), Out, Taken, Out));
    ms, acts := Steps(ms, acts, Read(1), Three(true, false, Some(1), Out, Swinging, Out));
    ms, acts := Steps(ms, acts, Swing(1), Three(true, false, None, Out, Reenabling, Out));
  }

  /** Three threads are enough: thread 2 waits at the head of the queue and has disabled stealing,
      and thread 0, which has just come, may steal the lock. */
  lemma {:induction false} StealingComesBack() returns (ms: seq<Machine>, acts: seq<Action>)
    ensures IsShuffledRun(ms, acts)
    ensures var s := ms[|acts|].lock;
            && At(s, 2, Heading) && At(s, 0, Out) && s.stealing && !s.locked
            && Do(s, Steal(0, false)).th[0].pc == Inside
  {
    ms, acts := OneIsAboutToEnable();
    ms, acts := Steps(ms, acts, Steal(2, false), Three(true, false, None, Out, Reenabling, Arriving));
    ms, acts := Steps(ms, acts, Exchange(2), Three(true, false, Some(2), Out, Reenabling, Announcing));
    ms, acts := Steps(ms, acts, Announce(2), Three(true, false, Some(2), Out, Reenabling, Heading));
    ms, acts := Steps(ms, acts, Reenable(1), Three(true, true, Some(2), Out, Inside, Heading));
    ms, acts := Steps(ms, acts, Release(1), Three(false, true, Some(2), Out, Out, Heading));
  }
}
