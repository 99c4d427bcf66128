/**
 How a thread predicts the length of its critical sections (uta.c): a stack of code locations for
 nested sections, the start time of the last section opened at each location, and a running
 average of the measured lengths. All of it is private to the thread.
 */
module Predict {

  const STACK_SIZE: nat := 128
  const MAX_LOC: nat := 128
  const MAX_CS_LEN: nat := 10000000
  const TWO_64: nat := 0x1_0000_0000_0000_0000

  // ----- The estimate ------------------------------------------------------------------

  /** One sample d on the estimate c, in 64-bit arithmetic. */
  function Estimate(c: nat, d: nat): nat {
    if c == 0 then d
    else if d < MAX_CS_LEN then (c * 7 + d) % TWO_64 / 8
    else c
  }

  function Repeated(c: nat, d: nat, n: nat): nat
    decreases n
  {
    if n == 0 then c else Repeated(Estimate(c, d), d, n - 1)
  }

  /** One step towards the sample: never away from it, never past it, and closer unless the
      estimate is in [d - 7, d] already. */
  lemma SampleAttracts(c: nat, d: nat)
    requires d < 10000000 && c * 7 + d < 0x1_0000_0000_0000_0000
    ensures d <= c ==> d <= Estimate(c, d) <= c && (d < c ==> Estimate(c, d) < c)
    ensures c <= d ==> c <= Estimate(c, d) <= d && (c < d - 7 ==> c < Estimate(c, d))
    ensures 0 < c && d - 7 <= c <= d ==> Estimate(c, d) == c
  {
  }

  /** How many samples are enough, one unit each. */
  function Distance(c: nat, d: nat): nat {
    if c == 0 then 1 else if c < d - 7 then d - 7 - c else if c <= d then 0 else c - d
  }

  /** Repeated samples drive the estimate into [d - 7, d], one unit a sample at least, and then
      leave it where it is: every further sample changes nothing. From above it ends on d. */
  lemma {:induction false} SamplesConverge(c: nat, d: nat, n: nat)
    requires 0 < d < 10000000 && c * 7 + d < 0x1_0000_0000_0000_0000 && n >= Distance(c, d)
    ensures d - 7 <= Repeated(c, d, n) <= d && Repeated(c, d, n) > 0
    ensures c >= d ==> Repeated(c, d, n) == d
    ensures Repeated(c, d, n + 1) == Repeated(c, d, n)
    decreases n
  {
    SampleAttracts(c, d);
    if n > 0 {
      SamplesConverge(Estimate(c, d), d, n - 1);
    }
  }

  /** The other samples: a long one is kept if it is the first, and not looked at otherwise. */
  lemma {:induction false} LongSamplesAreIgnored(c: nat, d: nat, n: nat)
    requires d >= 10000000
    ensures Repeated(c, d, n) == if c == 0 && n > 0 then d else c
    decreases n
  {
    if n > 0 {
      LongSamplesAreIgnored(Estimate(c, d), d, n - 1);
    }
  }

  // ----- What a thread remembers -------------------------------------------------------

  /** The open sections, outermost first, by location; the last start at each location, and the
      estimate of each. */
  datatype Log = Log(open: seq<int>, start: seq<nat>, len: seq<nat>)

  datatype Event = Enter(loc: nat, now: nat) | Leave(now: nat)

  ghost predicate WellFormed(l: Log) {
    && |l.start| == MAX_LOC && |l.len| == MAX_LOC
    && forall i :: 0 <= i < |l.open| ==> 0 <= l.open[i] < MAX_LOC
  }

  /** The stack holds all open sections but the innermost. */
  ghost predicate Possible(l: Log, e: Event) {
    match e
    case Enter(loc, _) => loc < MAX_LOC && |l.open| <= STACK_SIZE
    case Leave(_) => l.open != []
  }

  function Elapsed(start: nat, now: nat): nat { (now - start) % TWO_64 }

  ghost function After(l: Log, e: Event): (l': Log)
    requires WellFormed(l) && Possible(l, e)
    ensures WellFormed(l')
  {
    match e
    case Enter(loc, now) => Log(l.open + [loc], l.start[loc := now], l.len)
    case Leave(now) =>
      var n := |l.open| - 1;
      var loc := l.open[n];
      Log(l.open[..n], l.start, l.len[loc := Estimate(l.len[loc], Elapsed(l.start[loc], now))])
  }

  ghost predicate CanRun(l: Log, es: seq<Event>)
    requires WellFormed(l)
    decreases |es|
  {
    es != [] ==> Possible(l, es[0]) && CanRun(After(l, es[0]), es[1..])
  }

  ghost function Run(l: Log, es: seq<Event>): (l': Log)
    requires WellFormed(l) && CanRun(l, es)
    ensures WellFormed(l')
    decreases |es|
  {
    if es == [] then l else Run(After(l, es[0]), es[1..])
  }

  lemma {:induction false} RunJoins(l: Log, es: seq<Event>, fs: seq<Event>)
    requires WellFormed(l) && CanRun(l, es) && CanRun(Run(l, es), fs)
    ensures CanRun(l, es + fs) && Run(l, es + fs) == Run(Run(l, es), fs)
    decreases |es|
  {
    if es == [] {
      assert es + fs == fs;
    } else {
      assert (es + fs)[1..] == es[1..] + fs;
      RunJoins(After(l, es[0]), es[1..], fs);
    }
  }

  // ----- Well-nested sections ----------------------------------------------------------

  datatype Section = Section(loc: nat, start: nat, inner: seq<Section>, end: nat)

  function Trace(s: Section): seq<Event> {
    [Enter(s.loc, s.start)] + Traces(s.inner) + [Leave(s.end)]
  }

  function Traces(ss: seq<Section>): seq<Event> {
    if ss == [] then [] else Trace(ss[0]) + Traces(ss[1..])
  }

  /** Every location is in range, and the nesting fits the stack when `depth` sections are open. */
  ghost predicate Fits(ss: seq<Section>, depth: nat) {
    ss == [] || (ss[0].loc < 128 && depth <= 128 && Fits(ss[0].inner, depth + 1) && Fits(ss[1..], depth))
  }

  /** The last start at a location, after the sections ss. */
  function LastStart(ss: seq<Section>, loc: nat, start: nat): nat {
    if ss == [] then start
    else LastStart(ss[1..], loc, LastStart(ss[0].inner, loc, if ss[0].loc == loc then ss[0].start else start))
  }

  /** The estimates after the sections ss: each one, when it ends, is charged to its own location,
      for the time since the last start there. */
  function Charged(len: seq<nat>, ss: seq<Section>): (r: seq<nat>)
    requires |len| == MAX_LOC
    ensures |r| == MAX_LOC
    decreases ss
  {
    if ss == [] || ss[0].loc >= MAX_LOC then len
    else Charged(ChargedOne(len, ss[0]), ss[1..])
  }

  function ChargedOne(len: seq<nat>, s: Section): (r: seq<nat>)
    requires |len| == MAX_LOC && s.loc < MAX_LOC
    ensures |r| == MAX_LOC
    decreases s
  {
    var inner := Charged(len, s.inner);
    inner[s.loc := Estimate(inner[s.loc], Elapsed(LastStart(s.inner, s.loc, s.start), s.end))]
  }

  ghost predicate Restores(l: Log, ss: seq<Section>)
    requires WellFormed(l)
  {
    && CanRun(l, Traces(ss))
    && var r := Run(l, Traces(ss));
      && r.open == l.open && r.len == Charged(l.len, ss)
      && forall loc :: 0 <= loc < MAX_LOC ==> r.start[loc] == LastStart(ss, loc, l.start[loc])
  }

  /** Any well-nested sections that fit leave the stack as it was, and charge every section to its
      own location, however deep it is. */
  lemma {:induction false} NestedRunRestores(l: Log, ss: seq<Section>)
    requires WellFormed(l) && Fits(ss, |l.open|)
    ensures Restores(l, ss)
    decreases ss
  {
    if ss != [] {
      var s := ss[0];
      var l1 := After(l, Enter(s.loc, s.start));
      NestedRunRestores(l1, s.inner);
      var l2 := Run(l1, Traces(s.inner));
      var l3 := After(l2, Leave(s.end));
      NestedRunRestores(l3, ss[1..]);
      Bracketed(l, Enter(s.loc, s.start), Traces(s.inner), Leave(s.end));
      assert l3.open == l.open;
      assert l3.len == ChargedOne(l.len, s);
      RunJoins(l, Trace(s), Traces(ss[1..]));
    }
  }

  lemma Bracketed(l: Log, e: Event, es: seq<Event>, f: Event)
    requires WellFormed(l) && Possible(l, e) && CanRun(After(l, e), es) && Possible(Run(After(l, e), es), f)
    ensures CanRun(l, [e] + es + [f]) && Run(l, [e] + es + [f]) == After(Run(After(l, e), es), f)
  {
    RunOne(Run(After(l, e), es), f, []);
    RunJoins(After(l, e), es, [f]);
    RunOne(l, e, es + [f]);
    assert [e] + es + [f] == [e] + (es + [f]);
  }

  lemma RunOne(l: Log, e: Event, es: seq<Event>)
    requires WellFormed(l) && Possible(l, e) && CanRun(After(l, e), es)
    ensures CanRun(l, [e] + es) && Run(l, [e] + es) == Run(After(l, e), es)
    ensures es == [] ==> CanRun(l, [e]) && Run(l, [e]) == After(l, e)
  {
    assert ([e] + es)[1..] == es;
    assert es == [] ==> [e] + es == [e];
  }

  // ----- When the time charged is the section's own -------------------------------------

  predicate Mentions(ss: seq<Section>, loc: nat) {
    ss != [] && (ss[0].loc == loc || Mentions(ss[0].inner, loc) || Mentions(ss[1..], loc))
  }

  /** Every section in ss starts after t and not after u. */
  predicate Between(ss: seq<Section>, t: nat, u: nat) {
    ss == [] || (t < ss[0].start <= u && Between(ss[0].inner, t, u) && Between(ss[1..], t, u))
  }

  lemma {:induction false} LastStartMoves(ss: seq<Section>, loc: nat, start: nat, t: nat, u: nat)
    requires Between(ss, t, u)
    ensures if Mentions(ss, loc) then t < LastStart(ss, loc, start) <= u else LastStart(ss, loc, start) == start
  {
    if ss != [] {
      var s0 := if ss[0].loc == loc then ss[0].start else start;
      LastStartMoves(ss[0].inner, loc, s0, t, u);
      LastStartMoves(ss[1..], loc, LastStart(ss[0].inner, loc, s0), t, u);
    }
  }

  /** A section is charged its own duration exactly when no section nested in it, at any depth, is
      at the same location; otherwise it is charged less, since the start time is shared. */
  lemma OwnDurationIff(s: Section)
    requires s.start <= s.end < 0x1_0000_0000_0000_0000 && Between(s.inner, s.start, s.end)
    ensures var d := Elapsed(LastStart(s.inner, s.loc, s.start), s.end);
            && (d == s.end - s.start <==> !Mentions(s.inner, s.loc))
            && d <= s.end - s.start
  {
    LastStartMoves(s.inner, s.loc, s.start, s.start, s.end);
  }

  // ----- The thread-local variables -------------------------------------------------------

  class Predictor {
    var nestedLevel: int
    var curLoc: int
    var stackPos: int
    const locStack: array<int>
    const ttStart: array<nat>
    const criticalLen: array<nat>

    constructor ()
      ensures Valid() && fresh(locStack) && fresh(ttStart) && fresh(criticalLen)
      ensures Open() == [] && forall i :: 0 <= i < MAX_LOC ==> criticalLen[i] == 0
    {
      nestedLevel, curLoc, stackPos := 0, -1, -1;
      locStack := new int[STACK_SIZE](_ => 0);
      ttStart := new nat[MAX_LOC](_ => 0);
      criticalLen := new nat[MAX_LOC](_ => 0);
    }

    ghost predicate Valid()
      reads this, locStack, ttStart, criticalLen
    {
      && locStack.Length == STACK_SIZE && ttStart.Length == MAX_LOC && criticalLen.Length == MAX_LOC
      && ttStart != criticalLen
      && -1 <= stackPos < STACK_SIZE
      && -1 <= curLoc < MAX_LOC
      && (curLoc == -1 ==> stackPos == -1)
      && (forall i :: 0 <= i <= stackPos ==> 0 <= locStack[i] < MAX_LOC)
      && nestedLevel == |Open()|
    }

    /** The open sections: those on the stack, and the current one. */
    ghost function Open(): seq<int>
      reads this, locStack
      requires locStack.Length == STACK_SIZE && -1 <= stackPos < STACK_SIZE
    {
      locStack[..stackPos + 1] + (if curLoc == -1 then [] else [curLoc])
    }

    ghost function Snapshot(): Log
      reads this, locStack, ttStart, criticalLen
      requires Valid()
    {
      Log(Open(), ttStart[..], criticalLen[..])
    }

    /** Pushing onto a full stack fails, and leaves its position out of range. */
    method PushLoc(loc: int) returns (ret: int)
      requires locStack.Length == STACK_SIZE && -1 <= stackPos < STACK_SIZE
      modifies this`stackPos, locStack
      ensures stackPos == old(stackPos) + 1
      ensures stackPos == 128 ==> ret == -1 && locStack[..] == old(locStack[..])
      ensures stackPos < 128 ==> ret == 0 && locStack[..stackPos + 1] == old(locStack[..stackPos + 1]) + [loc]
    {
      stackPos := stackPos + 1;
      if stackPos == STACK_SIZE {
        return -1;
      }
      locStack[stackPos] := loc;
      return 0;
    }

    method PopLoc() returns (loc: int)
      requires locStack.Length == STACK_SIZE && -1 <= stackPos < STACK_SIZE
      modifies this`stackPos
      ensures old(stackPos) < 0 ==> loc == -1 && stackPos == old(stackPos)
      ensures old(stackPos) >= 0 ==> stackPos == old(stackPos) - 1
      ensures old(stackPos) >= 0 ==> old(locStack[..stackPos + 1]) == locStack[..stackPos + 1] + [loc]
    {
      if stackPos < 0 {
        return -1;
      }
      loc := locStack[stackPos];
      stackPos := stackPos - 1;
    }

    /** Everything lock does to these variables: the length it queues with, and the section opened
        at the time `now`, when the lock was acquired. */
    method Lock(loc: nat, now: nat) returns (criLen: int)
      requires Valid() && Possible(Snapshot(), Enter(loc, now))
      modifies this, locStack, ttStart
      ensures Valid() && Snapshot() == After(old(Snapshot()), Enter(loc, now))
      ensures criLen == if old(Open()) == [] then AsInt32(criticalLen[loc]) else 0
    {
      criLen := AsInt32(criticalLen[loc]);
      nestedLevel := nestedLevel + 1;
      if nestedLevel > 1 {
        criLen := 0;
      }
      ttStart[loc] := now;
      if curLoc >= 0 {
        var _ := PushLoc(curLoc);
      }
      curLoc := loc;
    }

    /** Everything unlock does to them: the section ends at the time `now`. */
    method Unlock(now: nat)
      requires Valid() && Possible(Snapshot(), Leave(now))
      modifies this, criticalLen
      ensures Valid() && Snapshot() == After(old(Snapshot()), Leave(now))
    {
      nestedLevel := nestedLevel - 1;
      var duration := Elapsed(ttStart[curLoc], now);
      if criticalLen[curLoc] == 0 {
        criticalLen[curLoc] := duration;
      } else if duration < MAX_CS_LEN {
        criticalLen[curLoc] := (criticalLen[curLoc] * 7 + duration) % TWO_64 / 8;
      }
      curLoc := PopLoc();
    }
  }

  /** The conversion of uint64_t to int. */
  function AsInt32(x: nat): int {
    var w := x % 0x1_0000_0000;
    if w < 0x8000_0000 then w else w - 0x1_0000_0000
  }

  /** It keeps what fits an int, and else the one int with the same lower 32 bits. */
  lemma AsInt32Is(x: nat)
    ensures -0x8000_0000 <= AsInt32(x) < 0x8000_0000
    ensures exists k: nat :: x == AsInt32(x) + k * 0x1_0000_0000
    ensures x < 0x8000_0000 ==> AsInt32(x) == x
  {
    var k := x / 0x1_0000_0000 + (if AsInt32(x) < 0 then 1 else 0);
    assert x == AsInt32(x) + k * 0x1_0000_0000;
  }
}
