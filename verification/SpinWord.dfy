/**
 The grant word of uta.c: the head of the secondary queue in the low 48 bits of `spin`, the batch
 in the high 16.
 */
module GrantWord {

  function Pack(head: bv64, batch: bv64): bv64 { head | (batch << 48) }

  function Batch(spin: bv64): bv64 { (spin >> 48) & 0xFFFF }

  function Head(spin: bv64): bv64 { spin & 0xFFFF_FFFF_FFFF }

  /** The head survives exactly when it is below 2^48. */
  lemma HeadUnpacks(head: bv64, batch: bv64)
    ensures Head(Pack(head, batch)) == head <==> head < 0x1_0000_0000_0000
  {
  }

  /** Behind such a head the batch survives exactly when it is below 2^16. */
  lemma BatchUnpacks(head: bv64, batch: bv64)
    requires head < 0x1_0000_0000_0000
    ensures Batch(Pack(head, batch)) == batch <==> batch < 0x1_0000
  {
  }

  lemma PackedIsNotZero(head: bv64, batch: bv64)
    requires 0 < batch < 0x1_0000
    ensures Pack(head, batch) != 0
  {
  }

  /** A batch of uta.c as a machine word. */
  lemma BatchIsSmall(b: nat)
    requires 1 <= b <= 1000
    ensures 0 < (b as bv64) < 0x1_0000
  {
  }

  /** A word made of these gives both back, and is not the zero a waiter spins on. */
  predicate Unpacks(head: bv64, b: nat) {
    && b <= 1000
    && Head(Pack(head, b as bv64)) == head
    && Batch(Pack(head, b as bv64)) == b as bv64
    && Pack(head, b as bv64) != 0
  }

  lemma SmallBatchUnpacks(head: bv64, b: nat)
    requires head < 0x1_0000_0000_0000 && 1 <= b <= 1000
    ensures Unpacks(head, b)
  {
    BatchIsSmall(b);
    HeadUnpacks(head, b as bv64);
    BatchUnpacks(head, b as bv64);
    PackedIsNotZero(head, b as bv64);
  }
}

/**
 The interleaved machine keeps the two parts of a grant word apart; the packed word carries both
 through every execution, and is zero only before the grant.
 */
module SpinWord {
  import opened TwoQueue
  import opened FineLock
  import opened FineLockTheorems
  import opened UtaInterleaved
  import GrantWord

  predicate InRange(w: Word) { w.Grant? ==> 1 <= w.batch <= 1000 }

  predicate NodeInRange(m: Memory, t: Tid) {
    InRange(At(m, t).spin) && (At(m, t).pc.Granting? ==> InRange(At(m, t).pc.word))
  }

  lemma StepKeepsInRange(m: Memory, t: Tid, l: Label, u: Tid)
    requires Enabled(m, t, l) && UtaChoice(m, t, l)
    requires NodeInRange(m, t) && NodeInRange(m, u)
    ensures NodeInRange(Do(m, t, l), u)
  {
    match l
    case PickCur(_, _) => SpliceKeepsWords(m, t, At(m, t).pc.last, u);
    case _ =>
  }

  lemma SpliceKeepsWords(m: Memory, t: Tid, last: Tid, u: Tid)
    ensures At(Splice(m, t, last), u).spin == At(m, u).spin && At(Splice(m, t, last), u).pc == At(m, u).pc
  {
  }

  lemma {:induction false} WordsInRange(ms: seq<Memory>, acts: seq<Act>, i: nat, u: Tid)
    requires IsUtaExecution(ms, acts) && i < |ms|
    ensures NodeInRange(ms[i], u)
  {
    if i > 0 {
      var (t, l) := acts[i - 1];
      WordsInRange(ms, acts, i - 1, t);
      WordsInRange(ms, acts, i - 1, u);
      assert FineLockTheorems.StepAt(ms, acts, i - 1);
      assert EnabledAt(ms, acts, i - 1) && ChoosesAt(ms, acts, i - 1);
      StepKeepsInRange(ms[i - 1], t, l, u);
    }
  }

  /** Whatever the address of the head, NULL or one below 2^48: in every reachable state,
      and for every word a thread is about to store, the shift and the masks of uta.c give back the
      batch and the head, and the packed word is not zero. */
  lemma EveryWordUnpacks(ms: seq<Memory>, acts: seq<Act>, i: nat, u: Tid, head: bv64)
    requires IsUtaExecution(ms, acts) && i < |ms| && head < 0x1_0000_0000_0000
    ensures At(ms[i], u).spin.Grant? ==> GrantWord.Unpacks(head, At(ms[i], u).spin.batch)
    ensures At(ms[i], u).pc.Granting? && At(ms[i], u).pc.word.Grant? ==>
              GrantWord.Unpacks(head, At(ms[i], u).pc.word.batch)
  {
    WordsInRange(ms, acts, i, u);
    var n := At(ms[i], u);
    if n.spin.Grant? {
      GrantWord.SmallBatchUnpacks(head, n.spin.batch);
    }
    if n.pc.Granting? && n.pc.word.Grant? {
      GrantWord.SmallBatchUnpacks(head, n.pc.word.batch);
    }
  }
}
