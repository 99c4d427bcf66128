/**
 How a thread waits for a word to become UNLOCKED (waiting_policy.h): by spinning, by sleeping in
 the kernel, or by the one and then the other. Each phase ends with one access to the word.
 */
module WaitingPolicy {
  import opened TwoQueue

  const SPINNING_THRESHOLD: nat := 4000

  datatype Policy = SpinOnly | SpinThenPark | ParkAtOnce

  datatype Word = LOCKED | UNLOCKED

  datatype Phase =
    | Spinning(i: nat)        // spinning before parking
    | Rechecking              // done spinning, about to look once more
    | GoingToPark             // about to call FUTEX_WAIT
    | Parked
    | Resuming                // spinning, not to park again, until the word is UNLOCKED

  /** What makes a waiting thread go on: itself, or the kernel ending its FUTEX_WAIT. */
  datatype Cause = Itself | Interrupted | WokenByNobody | Woken

  /** Where waiting_policy_sleep starts. */
  function Start(p: Policy): Phase {
    match p
    case SpinOnly => Resuming
    case SpinThenPark => Spinning(0)
    case ParkAtOnce => GoingToPark
  }

  predicate CanMove(w: Phase, c: Cause) {
    w.Parked? <==> c != Itself
  }

  /** The next phase, or None when waiting_policy_sleep returns. FUTEX_WAIT looks at the word and
      parks in one step; EINTR calls it again, EAGAIN and a return end it. */
  function Move(w: Phase, word: Word, c: Cause): Option<Phase>
    requires CanMove(w, c)
  {
    match w
    case Spinning(i) => Some(if i < SPINNING_THRESHOLD && word == LOCKED then Spinning(i + 1) else Rechecking)
    case Rechecking => if word == UNLOCKED then None else Some(GoingToPark)
    case GoingToPark => Some(if word == LOCKED then Parked else Resuming)
    case Parked => Some(if c == Interrupted then GoingToPark else Resuming)
    case Resuming => if word == UNLOCKED then None else Some(Resuming)
  }

  /** The phase after n moves of the thread itself that all find the word LOCKED. */
  function Kept(w: Phase, n: nat): (w': Phase)
    decreases n
  {
    if n == 0 || w.Parked? then w
    else match Move(w, LOCKED, Itself) case Some(w') => Kept(w', n - 1) case None => w
  }

  lemma {:induction false} KeptSpinning(i: nat, n: nat)
    requires i + n <= SPINNING_THRESHOLD
    ensures Kept(Spinning(i), n) == Spinning(i + n)
    decreases n
  {
    if n > 0 {
      KeptSpinning(i + 1, n - 1);
    }
  }

  lemma {:induction false} KeptJoins(w: Phase, n: nat, k: nat)
    ensures Kept(w, n + k) == Kept(Kept(w, n), k)
    decreases n
  {
    if n > 0 && !w.Parked? {
      match Move(w, LOCKED, Itself)
      case Some(w') => KeptJoins(w', n - 1, k);
      case None =>
    }
  }

  /** A thread that finds the word LOCKED all the time parks at once, or after 4000 spins and a last
      look, or never, as its policy says. */
  lemma ParksAfter(p: Policy, n: nat)
    ensures Kept(Start(p), n).Parked? <==>
              match p case ParkAtOnce => n >= 1 case SpinThenPark => n >= 4003 case SpinOnly => false
  {
    match p
    case ParkAtOnce =>
      if n >= 1 {
        KeptJoins(GoingToPark, 1, n - 1);
      }
    case SpinThenPark =>
      if n <= 4000 {
        KeptSpinning(0, n);
      } else {
        KeptSpinning(0, 4000);
        KeptJoins(Spinning(0), 4000, n - 4000);
        KeptParks(n - 4000);
      }
    case SpinOnly => KeptResuming(n);
  }

  /** The last look, and the call. */
  lemma KeptParks(n: nat)
    requires n > 0
    ensures Kept(Spinning(4000), n).Parked? <==> n >= 3
  {
    assert Move(Spinning(4000), LOCKED, Itself) == Some(Rechecking);
    assert Kept(Spinning(4000), n) == Kept(Rechecking, n - 1);
    if n > 1 {
      assert Kept(Rechecking, n - 1) == Kept(GoingToPark, n - 2);
      if n > 2 {
        assert Kept(GoingToPark, n - 2) == Kept(Parked, n - 3);
      }
    }
  }

  /** Only an interrupted FUTEX_WAIT is called again, and then parks again on a LOCKED word. After any
      other return the thread spins and never parks again. */
  lemma ReturnsFromParking(word: Word, c: Cause, n: nat)
    requires c != Itself
    ensures c == Interrupted ==>
      Move(Parked, word, c) == Some(GoingToPark) && (n > 0 ==> Kept(GoingToPark, n) == Parked)
    ensures c != Interrupted ==> Move(Parked, word, c) == Some(Resuming) && Kept(Resuming, n) == Resuming
  {
    KeptResuming(n);
    if n > 0 {
      KeptJoins(GoingToPark, 1, n - 1);
    }
  }

  lemma {:induction false} KeptResuming(n: nat)
    ensures Kept(Resuming, n) == Resuming
    decreases n
  {
    if n > 0 {
      KeptResuming(n - 1);
    }
  }

  /** Moves of its own that a thread needs, once it is not parked, to see an UNLOCKED word. */
  function ToGo(w: Phase): nat {
    match w
    case Spinning(_) => 2
    case GoingToPark => 2
    case Parked => 2
    case Rechecking => 1
    case Resuming => 1
  }

  lemma UnlockedIsSeen(w: Phase, c: Cause)
    requires CanMove(w, c)
    ensures c != Interrupted && ToGo(w) == 1 ==> Move(w, UNLOCKED, c) == None
    ensures c != Interrupted && ToGo(w) == 2 ==> Move(w, UNLOCKED, c).Some? && ToGo(Move(w, UNLOCKED, c).value) == 1
    ensures Move(w, UNLOCKED, c) != Some(Parked)
    ensures Move(w, LOCKED, c) != None
  {
  }
}
