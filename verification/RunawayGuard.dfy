/**
 * The runaway guard: exact repeats and periodic cycles at the tail of a tool
 * history. The guard compares slices of the tail; the lemmas give its decision
 * as shift periodicity, and bound how much history it can depend on.
 */
module RunawayGuard {

  datatype Attempt = Attempt(tool: string, callFp: string, resultFp: string, ok: bool, changed: bool, turn: int, editEpoch: int)

  datatype Action = Remind | Stop | RequireReread

  /** Why a decision blocks; the cycle reasons name the tools of one period. */
  datatype Reason = RepeatedCall(tool: string) | RepeatedRead | Cycle(names: seq<string>)

  datatype Decision = Pass | Block(action: Action, reason: Reason)

  function Max(a: int, b: int): int {
    if a < b then b else a
  }

  function Tail(h: seq<Attempt>, n: nat): seq<Attempt>
    requires n <= |h|
  {
    h[|h| - n..]
  }

  function Print(r: Attempt): (string, string) {
    (r.callFp, r.resultFp)
  }

  function Prints(s: seq<Attempt>): (p: seq<(string, string)>) {
    seq(|s|, i requires 0 <= i < |s| => Print(s[i]))
  }

  function ReadCalls(s: seq<Attempt>): seq<string> {
    if s == [] then []
    else (if s[0].tool == "read" then [s[0].callFp] else []) + ReadCalls(s[1..])
  }

  function Tools(s: seq<Attempt>): seq<string> {
    seq(|s|, i requires 0 <= i < |s| => s[i].tool)
  }

  function ExactRepeat(h: seq<Attempt>, threshold: int): Decision {
    if |h| < threshold || threshold < 2 then Pass
    else
      var tail := Tail(h, threshold);
      var keys := set k | k in Prints(tail);
      var calls := ReadCalls(tail);
      if |keys| == 1 then Block(Remind, RepeatedCall(tail[threshold - 1].tool))
      else if |calls| == threshold && |(set c | c in calls)| == 1 then Block(Remind, RepeatedRead)
      else Pass
  }

  /** The i-th of `cycles` consecutive slices of length `p`. */
  function Slice(tail: seq<Attempt>, p: nat, i: nat): seq<Attempt>
    requires (i + 1) * p <= |tail|
  {
    tail[i * p..(i + 1) * p]
  }

  /** Every later slice has the fingerprints of the first. */
  predicate SlicesAgree(tail: seq<Attempt>, p: nat, cycles: nat)
    requires |tail| == p * cycles && cycles >= 2
  {
    forall i :: 1 <= i < cycles ==> SliceAgrees(tail, p, cycles, i)
  }

  predicate SliceAgrees(tail: seq<Attempt>, p: nat, cycles: nat, i: nat)
    requires |tail| == p * cycles && i < cycles
  {
    SliceFits(p, cycles, i);
    SliceFits(p, cycles, 0);
    Prints(Slice(tail, p, i)) == Prints(Slice(tail, p, 0))
  }

  lemma SliceFits(p: nat, cycles: nat, i: nat)
    requires i < cycles
    ensures 0 <= i * p <= (i + 1) * p <= p * cycles
  {
    var rest := cycles - (i + 1);
    assert p * cycles == p * (i + 1) + p * rest;
  }

  predicate Looping(tail: seq<Attempt>, p: nat, cycles: nat)
    requires |tail| == p * cycles && cycles >= 2
  {
    && !(exists r :: r in tail && r.changed)
    && |(set r | r in tail :: r.editEpoch)| == 1
    && SlicesAgree(tail, p, cycles)
  }

  function CycleAction(tail: seq<Attempt>): Action {
    var tools := Tools(tail);
    if "shell" in tools then Stop else if "edit" in tools then RequireReread else Remind
  }

  /** The first period from `p` on that tiles the tail `cycles` times. */
  function FirstCycle(h: seq<Attempt>, p: nat, maxPeriod: int, cycles: nat): Decision
    requires p >= 1 && cycles >= 2
    decreases maxPeriod - p
  {
    if p > maxPeriod then Pass
    else if |h| >= p * cycles && Looping(Tail(h, p * cycles), p, cycles)
    then WindowHolds(p, cycles); Block(CycleAction(Tail(h, p * cycles)), Cycle(Tools(Tail(h, p * cycles)[..p])))
    else FirstCycle(h, p + 1, maxPeriod, cycles)
  }

  lemma WindowHolds(p: nat, cycles: nat)
    requires cycles >= 2
    ensures 2 * p <= p * cycles
  {
    SliceFits(p, cycles, 1);
  }

  function PeriodicCycle(h: seq<Attempt>, minPeriod: int, maxPeriod: int, cycles: int): Decision {
    FirstCycle(h, Max(1, minPeriod), maxPeriod, Max(2, cycles))
  }

  function ShouldBlock(h: seq<Attempt>, threshold: int): Decision {
    var exact := ExactRepeat(h, threshold);
    if exact.Block? then exact else PeriodicCycle(h, 2, 4, 2)
  }

  // Slices against shifts

  /** Each record has the fingerprints of the record `p` before it. */
  ghost predicate ShiftPeriodic(s: seq<Attempt>, p: nat) {
    forall k :: p <= k < |s| ==> Print(s[k]) == Print(s[k - p])
  }

  /** Under shift periodicity, a record agrees with its place in the first period. */
  lemma {:induction false} ShiftBack(s: seq<Attempt>, p: nat, i: nat, j: nat)
    requires ShiftPeriodic(s, p) && j < p && 0 <= i * p && i * p + j < |s|
    ensures 0 <= j < |s| && Print(s[i * p + j]) == Print(s[j])
  {
    if i > 0 {
      assert i * p == (i - 1) * p + p;
      SliceFits(p, i, i - 1);
      ShiftBack(s, p, i - 1, j);
    }
  }

  /** Slice by slice equality with the first slice is shift periodicity, for any number of cycles. */
  lemma SlicesAgreeIffShiftPeriodic(s: seq<Attempt>, p: nat, cycles: nat)
    requires |s| == p * cycles && cycles >= 2
    ensures SlicesAgree(s, p, cycles) <==> ShiftPeriodic(s, p)
  {
    WindowHolds(p, cycles);
    if SlicesAgree(s, p, cycles) {
      forall k | p <= k < |s| ensures Print(s[k]) == Print(s[k - p]) {
        var i, j := k / p, k % p;
        QuotientBounds(k, p, cycles);
        SliceEntry(s, p, cycles, i, j);
        if i > 1 { SliceEntry(s, p, cycles, i - 1, j); }
        assert k == i * p + j && k - p == (i - 1) * p + j;
      }
    }
    if ShiftPeriodic(s, p) {
      forall i | 1 <= i < cycles ensures SliceAgrees(s, p, cycles, i) {
        SliceFits(p, cycles, i);
        forall j | 0 <= j < p ensures Print(Slice(s, p, i)[j]) == Print(Slice(s, p, 0)[j]) {
          ShiftBack(s, p, i, j);
        }
      }
    }
  }

  lemma QuotientBounds(k: nat, p: nat, cycles: nat)
    requires 0 < p <= k < p * cycles
    ensures 1 <= k / p < cycles && k == (k / p) * p + k % p && k - p == (k / p - 1) * p + k % p
  {
    if cycles <= k / p { MulMonotone(cycles, k / p, p); }
  }

  lemma MulMonotone(a: nat, b: nat, p: nat)
    requires a <= b
    ensures a * p <= b * p
  {
  }

  lemma SliceEntry(s: seq<Attempt>, p: nat, cycles: nat, i: nat, j: nat)
    requires |s| == p * cycles && cycles >= 2 && SlicesAgree(s, p, cycles) && 1 <= i < cycles && j < p
    ensures 0 <= i * p + j < |s| && p <= |s| && Print(s[i * p + j]) == Print(s[j])
  {
    SliceFits(p, cycles, i);
    WindowHolds(p, cycles);
    assert SliceAgrees(s, p, cycles, i);
    assert Prints(Slice(s, p, i))[j] == Print(Slice(s, p, i)[j]);
    assert Prints(Slice(s, p, 0))[j] == Print(s[j]);
  }

  // The decision, for every history

  lemma OneValue<T>(s: seq<T>)
    ensures |(set x | x in s)| == 1 <==> s != [] && forall i :: 0 <= i < |s| ==> s[i] == s[0]
  {
    var values := set x | x in s;
    if |values| == 1 {
      assert s == [] ==> values == {};
      assert s[0] in values && |values - {s[0]}| == 0;
      forall i | 0 <= i < |s| ensures s[i] == s[0] { assert s[i] in values && s[i] !in values - {s[0]}; }
    }
    if s != [] && forall i :: 0 <= i < |s| ==> s[i] == s[0] {
      assert values == {s[0]};
    }
  }

  lemma {:induction false} AllReads(s: seq<Attempt>)
    ensures |ReadCalls(s)| <= |s|
    ensures |ReadCalls(s)| == |s| <==> forall i :: 0 <= i < |s| ==> s[i].tool == "read"
    ensures |ReadCalls(s)| == |s| ==> forall i :: 0 <= i < |s| ==> ReadCalls(s)[i] == s[i].callFp
  {
    if s != [] {
      AllReads(s[1..]);
      assert forall i :: 1 <= i < |s| ==> s[i] == s[1..][i - 1];
    }
  }

  ghost predicate SameOutcome(s: seq<Attempt>) {
    forall i :: 0 <= i < |s| ==> Print(s[i]) == Print(s[0])
  }

  ghost predicate SameRead(s: seq<Attempt>) {
    forall i :: 0 <= i < |s| ==> s[i].tool == "read" && s[i].callFp == s[0].callFp
  }

  lemma ExactRepeatIff(h: seq<Attempt>, threshold: int)
    ensures ExactRepeat(h, threshold).Block?
            <==> 2 <= threshold <= |h| && (SameOutcome(Tail(h, threshold)) || SameRead(Tail(h, threshold)))
  {
    if 2 <= threshold <= |h| {
      var tail := Tail(h, threshold);
      OneValue(Prints(tail));
      OneValue(ReadCalls(tail));
      AllReads(tail);
      assert forall i :: 0 <= i < |tail| ==> Prints(tail)[i] == Print(tail[i]);
      assert SameOutcome(tail) <==> forall i :: 0 <= i < |Prints(tail)| ==> Prints(tail)[i] == Prints(tail)[0];
    }
  }

  /** The last `cycles` periods repeat each other, nothing changed and the edit epoch stood still. */
  ghost predicate Stuck(h: seq<Attempt>, p: nat, cycles: nat) {
    && 0 < p * cycles <= |h|
    && ShiftPeriodic(Tail(h, p * cycles), p)
    && (forall k :: |h| - p * cycles <= k < |h| ==> !h[k].changed && h[k].editEpoch == h[|h| - 1].editEpoch)
  }

  lemma LoopingIffStuck(h: seq<Attempt>, p: nat, cycles: nat)
    requires p >= 1 && cycles >= 2 && |h| >= p * cycles
    ensures Looping(Tail(h, p * cycles), p, cycles) <==> Stuck(h, p, cycles)
  {
    WindowHolds(p, cycles);
    SlicesAgreeIffShiftPeriodic(Tail(h, p * cycles), p, cycles);
    EpochsAgree(Tail(h, p * cycles));
    StillIff(h, p * cycles);
  }

  lemma StillIff(h: seq<Attempt>, n: nat)
    requires 0 < n <= |h|
    ensures (!(exists r :: r in Tail(h, n) && r.changed)
             && forall i :: 0 <= i < n ==> Tail(h, n)[i].editEpoch == Tail(h, n)[n - 1].editEpoch)
            <==> forall k :: |h| - n <= k < |h| ==> !h[k].changed && h[k].editEpoch == h[|h| - 1].editEpoch
  {
    var tail := Tail(h, n);
    assert forall k :: |h| - n <= k < |h| ==> h[k] == tail[k - (|h| - n)];
  }

  lemma EpochsAgree(s: seq<Attempt>)
    requires s != []
    ensures |(set r | r in s :: r.editEpoch)| == 1 <==> forall i :: 0 <= i < |s| ==> s[i].editEpoch == s[|s| - 1].editEpoch
  {
    var epochs := seq(|s|, i requires 0 <= i < |s| => s[i].editEpoch);
    OneValue(epochs);
    assert (set r | r in s :: r.editEpoch) == (set e | e in epochs) by {
      forall r | r in s ensures r.editEpoch in epochs {
        var i :| 0 <= i < |s| && s[i] == r;
        assert epochs[i] == r.editEpoch;
      }
    }
    assert epochs[0] == s[0].editEpoch && epochs[|s| - 1] == s[|s| - 1].editEpoch;
    assert forall i :: 0 <= i < |s| ==> epochs[i] == s[i].editEpoch;
  }

  lemma {:induction false} FirstCycleIff(h: seq<Attempt>, p: nat, maxPeriod: int, cycles: nat)
    requires p >= 1 && cycles >= 2
    ensures FirstCycle(h, p, maxPeriod, cycles).Block? <==> exists q: nat :: p <= q <= maxPeriod && Stuck(h, q, cycles)
    decreases maxPeriod - p
  {
    if p <= maxPeriod {
      FirstCycleIff(h, p + 1, maxPeriod, cycles);
      if |h| >= p * cycles { LoopingIffStuck(h, p, cycles); }
    }
  }

  /** Whatever range and number are asked for, periods start at 1 and cycles at 2. */
  lemma PeriodicCycleIff(h: seq<Attempt>, minPeriod: int, maxPeriod: int, cycles: int)
    ensures var n := if cycles < 2 then 2 else cycles;
            PeriodicCycle(h, minPeriod, maxPeriod, cycles).Block? <==>
            exists q: nat :: 1 <= q && minPeriod <= q <= maxPeriod && Stuck(h, q, n)
  {
    FirstCycleIff(h, Max(1, minPeriod), maxPeriod, Max(2, cycles));
  }

  /** What a repeat is answered with: the call is named when outcomes agree, and reads otherwise. */
  lemma ExactRepeatSays(h: seq<Attempt>, threshold: int)
    requires 2 <= threshold <= |h|
    ensures SameOutcome(Tail(h, threshold)) ==>
              ExactRepeat(h, threshold) == Block(Remind, RepeatedCall(h[|h| - 1].tool))
    ensures !SameOutcome(Tail(h, threshold)) && SameRead(Tail(h, threshold)) ==>
              ExactRepeat(h, threshold) == Block(Remind, RepeatedRead)
  {
    var tail := Tail(h, threshold);
    ExactRepeatIff(h, threshold);
    OneValue(Prints(tail));
    assert forall i :: 0 <= i < |tail| ==> Prints(tail)[i] == Print(tail[i]);
  }

  ghost predicate Uses(h: seq<Attempt>, n: nat, tool: string) {
    exists k :: |h| - n <= k < |h| && 0 <= k && h[k].tool == tool
  }

  lemma ToolsUsed(h: seq<Attempt>, n: nat, tool: string)
    requires n <= |h|
    ensures tool in Tools(Tail(h, n)) <==> Uses(h, n, tool)
  {
    var tools := Tools(Tail(h, n));
    assert forall i :: 0 <= i < n ==> tools[i] == h[|h| - n + i].tool;
    if Uses(h, n, tool) {
      var k :| |h| - n <= k < |h| && 0 <= k && h[k].tool == tool;
      assert tools[k - (|h| - n)] == tool;
    }
  }

  /** What a cycle is answered with: the shortest stuck period is the one reported, and a cycle that runs the
      shell stops, one that edits has to read again, any other is reminded. */
  lemma {:induction false} FirstCycleSays(h: seq<Attempt>, p: nat, maxPeriod: int, cycles: nat, q: nat)
    requires p >= 1 && cycles >= 2 && p <= q <= maxPeriod && Stuck(h, q, cycles)
    requires forall r: nat :: p <= r < q ==> !Stuck(h, r, cycles)
    ensures var d := FirstCycle(h, p, maxPeriod, cycles);
            && d.Block? && d.reason.Cycle? && |d.reason.names| == q <= q * cycles
            && (forall i :: 0 <= i < q ==> d.reason.names[i] == h[|h| - q * cycles + i].tool)
            && (d.action == Stop <==> Uses(h, q * cycles, "shell"))
            && (d.action == RequireReread <==> !Uses(h, q * cycles, "shell") && Uses(h, q * cycles, "edit"))
    decreases q - p
  {
    if |h| >= p * cycles { LoopingIffStuck(h, p, cycles); }
    if p == q {
      CycleSays(h, p, cycles);
    } else {
      FirstCycleSays(h, p + 1, maxPeriod, cycles, q);
    }
  }

  lemma CycleSays(h: seq<Attempt>, p: nat, cycles: nat)
    requires p >= 1 && cycles >= 2 && |h| >= p * cycles
    ensures p <= p * cycles
    ensures var tail := Tail(h, p * cycles);
            && (forall i :: 0 <= i < p ==> Tools(tail[..p])[i] == h[|h| - p * cycles + i].tool)
            && (CycleAction(tail) == Stop <==> Uses(h, p * cycles, "shell"))
            && (CycleAction(tail) == RequireReread <==> !Uses(h, p * cycles, "shell") && Uses(h, p * cycles, "edit"))
  {
    WindowHolds(p, cycles);
    ToolsUsed(h, p * cycles, "shell");
    ToolsUsed(h, p * cycles, "edit");
  }

  /** The guard blocks exactly on an outcome or a read repeated to the threshold, or on two turns of a
      cycle of two to four calls without progress. */
  lemma BlocksIff(h: seq<Attempt>, threshold: int)
    ensures ShouldBlock(h, threshold).Block? <==>
            || (2 <= threshold <= |h| && (SameOutcome(Tail(h, threshold)) || SameRead(Tail(h, threshold))))
            || exists p: nat :: 2 <= p <= 4 && Stuck(h, p, 2)
  {
    ExactRepeatIff(h, threshold);
    FirstCycleIff(h, 2, 4, 2);
  }

  /** A repeat is answered as such even when it is a cycle too. */
  lemma RepeatComesFirst(h: seq<Attempt>, threshold: int)
    requires 2 <= threshold <= |h| && (SameOutcome(Tail(h, threshold)) || SameRead(Tail(h, threshold)))
    ensures ShouldBlock(h, threshold) == Block(Remind,
              if SameOutcome(Tail(h, threshold)) then RepeatedCall(h[|h| - 1].tool) else RepeatedRead)
  {
    ExactRepeatSays(h, threshold);
  }

  lemma TailOfSum(a: seq<Attempt>, s: seq<Attempt>, n: nat)
    requires n <= |s|
    ensures Tail(a + s, n) == Tail(s, n)
  {
  }

  lemma {:induction false} FirstCycleLocal(a: seq<Attempt>, s: seq<Attempt>, p: nat, maxPeriod: int, cycles: nat)
    requires p >= 1 && cycles >= 2 && |s| >= maxPeriod * cycles
    ensures FirstCycle(a + s, p, maxPeriod, cycles) == FirstCycle(s, p, maxPeriod, cycles)
    decreases maxPeriod - p
  {
    if p <= maxPeriod {
      MulMonotone(p, maxPeriod, cycles);
      TailOfSum(a, s, p * cycles);
      FirstCycleLocal(a, s, p + 1, maxPeriod, cycles);
    }
  }

  /** The whole decision, its reason and action included, depends on the last eight records alone, or on as
      many as the threshold when that is larger: any two pasts give the same. */
  lemma OnlyTheTailMatters(a: seq<Attempt>, b: seq<Attempt>, s: seq<Attempt>, threshold: int)
    requires |s| >= Max(threshold, 8)
    ensures ShouldBlock(a + s, threshold) == ShouldBlock(b + s, threshold)
  {
    if threshold >= 2 {
      TailOfSum(a, s, threshold);
      TailOfSum(b, s, threshold);
    }
    FirstCycleLocal(a, s, 2, 4, 2);
    FirstCycleLocal(b, s, 2, 4, 2);
  }

  /** A stuck history that goes on the same way stays stuck. */
  lemma LoopGoesOn(h: seq<Attempt>, r: Attempt, p: nat, cycles: nat)
    requires p >= 1 && cycles >= 2 && Stuck(h, p, cycles)
    requires Print(r) == Print(h[|h| - p]) && !r.changed && r.editEpoch == h[|h| - 1].editEpoch
    ensures Stuck(h + [r], p, cycles)
  {
    WindowHolds(p, cycles);
    var n := p * cycles;
    var tail, next := Tail(h, n), Tail(h + [r], n);
    assert next == tail[1..] + [r];
    forall k | p <= k < n ensures Print(next[k]) == Print(next[k - p]) {
      if k < n - 1 { assert Print(tail[k + 1]) == Print(tail[k + 1 - p]); }
      else { assert next[k - p] == h[|h| - p]; }
    }
  }

  /** A file change or a new edit epoch ends every cycle, of whatever length and count. */
  lemma ProgressEndsCycles(h: seq<Attempt>, r: Attempt, minPeriod: int, maxPeriod: int, cycles: int)
    requires r.changed || (h != [] && r.editEpoch != h[|h| - 1].editEpoch)
    ensures PeriodicCycle(h + [r], minPeriod, maxPeriod, cycles).Pass?
  {
    var n: nat := Max(2, cycles);
    FirstCycleIff(h + [r], Max(1, minPeriod), maxPeriod, n);
    forall q: nat | q >= 1 ensures !Stuck(h + [r], q, n) {
      WindowHolds(q, n);
      assert (h + [r])[|h|] == r && (h != [] ==> (h + [r])[|h| - 1] == h[|h| - 1]);
    }
  }
}
