/**
 * `wait_run`: observers read a change sequence, take a durable snapshot, and
 * park on a condition variable only if the sequence has not moved. A state
 * machine over the lock sections of `wait`, `_changed` and `close`.
 */
module ControlWait {

  const SLOTS: nat := 16

  /** Where one observer is. `sequence` is what it read first, `seen` the durable
      commit its snapshot reflects. */
  datatype Phase =
    | Looping
    | Sequenced(sequence: nat)
    | Looked(sequence: nat, seen: nat)
    | Ready(sequence: nat, seen: nat)
    | Parked(sequence: nat, seen: nat)

  /** Observers holding a wait slot, by caller id. */
  datatype State = State(
    committed: nat, changeSequence: nat, slots: nat, draining: bool, subscribed: bool, observers: map<nat, Phase>)

  datatype Step =
    | Commit
    | Publish
    | Enter(who: nat)
    | ReadSequence(who: nat)
    | ReadSnapshot(who: nat)
    | SnapshotFails(who: nat)
    | Decide(who: nat, reason: bool)
    | Park(who: nat)
    | TimeOut(who: nat)
    | SetDraining
    | Activate
    | Unsubscribe
    | NotifyAll

  function Start(): State {
    State(0, 0, SLOTS, false, true, map[])
  }

  function Woken(p: Phase): Phase {
    if p.Parked? then Looping else p
  }

  function WakeAll(s: State): State {
    s.(observers := map o | o in s.observers :: Woken(s.observers[o]))
  }

  function Set(s: State, o: nat, p: Phase): State {
    s.(observers := s.observers[o := p])
  }

  /** The `finally` of `wait`. */
  function Leave(s: State, o: nat): State {
    s.(observers := s.observers - {o}, slots := s.slots + 1)
  }

  /** One lock section; a step that is not enabled changes nothing. */
  function Next(s: State, step: Step): State {
    match step
    case Commit => s.(committed := s.committed + 1)
    case Publish =>
      if s.subscribed && s.changeSequence < s.committed then WakeAll(s.(changeSequence := s.changeSequence + 1)) else s
    case Enter(o) =>
      if o !in s.observers && s.slots > 0 then Set(s.(slots := s.slots - 1), o, Looping) else s
    case ReadSequence(o) =>
      if o in s.observers && s.observers[o].Looping? then Set(s, o, Sequenced(s.changeSequence)) else s
    case ReadSnapshot(o) =>
      if o in s.observers && s.observers[o].Sequenced? then Set(s, o, Looked(s.observers[o].sequence, s.committed)) else s
    case SnapshotFails(o) =>
      if o in s.observers && s.observers[o].Sequenced? then Leave(s, o) else s
    case Decide(o, reason) =>
      if o in s.observers && s.observers[o].Looked? then
        if reason || s.draining then Leave(s, o)
        else Set(s, o, Ready(s.observers[o].sequence, s.observers[o].seen))
      else s
    case Park(o) =>
      if o in s.observers && s.observers[o].Ready? then
        var p := s.observers[o];
        Set(s, o, if p.sequence == s.changeSequence then Parked(p.sequence, p.seen) else Looping)
      else s
    case TimeOut(o) =>
      if o in s.observers && s.observers[o].Parked? then Set(s, o, Looping) else s
    case SetDraining => s.(draining := true)
    case Activate => s.(draining := false)
    case Unsubscribe => s.(subscribed := false)
    case NotifyAll => WakeAll(s)
  }

  function Run(s: State, steps: seq<Step>): State
    decreases |steps|
  {
    if steps == [] then s else Run(Next(s, steps[0]), steps[1..])
  }

  ghost predicate Sane(s: State, p: Phase) {
    match p
    case Looping => true
    case Sequenced(q) => q <= s.changeSequence
    case Looked(q, v) => q <= s.changeSequence && q <= v <= s.committed
    case Ready(q, v) => q <= s.changeSequence && q <= v <= s.committed
    case Parked(q, v) => q == s.changeSequence && q <= v <= s.committed
  }

  ghost predicate Inv(s: State) {
    && s.changeSequence <= s.committed
    && s.slots + |s.observers| == SLOTS
    && (forall o :: o in s.observers ==> Sane(s, s.observers[o]))
  }

  /** Waking everybody keeps the invariant, also when the sequence moves in the same section. */
  lemma WakeKeepsInv(s: State, moved: bool)
    requires Inv(s) && (moved ==> s.changeSequence < s.committed)
    ensures Inv(WakeAll(s.(changeSequence := if moved then s.changeSequence + 1 else s.changeSequence)))
  {
    var t := WakeAll(s.(changeSequence := if moved then s.changeSequence + 1 else s.changeSequence));
    assert t.observers.Keys == s.observers.Keys;
    assert |t.observers| == |t.observers.Keys| == |s.observers.Keys| == |s.observers|;
  }

  lemma SetKeepsInv(s: State, o: nat, p: Phase)
    requires Inv(s) && o in s.observers && Sane(s, p)
    ensures Inv(Set(s, o, p))
  {
    var t := Set(s, o, p);
    assert t.observers.Keys == s.observers.Keys;
    assert |t.observers| == |t.observers.Keys| == |s.observers.Keys| == |s.observers|;
  }

  lemma EnterKeepsInv(s: State, o: nat)
    requires Inv(s) && o !in s.observers && s.slots > 0
    ensures Inv(Set(s.(slots := s.slots - 1), o, Looping))
  {
    var t := Set(s.(slots := s.slots - 1), o, Looping);
    assert t.observers.Keys == s.observers.Keys + {o};
    assert |t.observers| == |t.observers.Keys| == |s.observers.Keys| + 1 == |s.observers| + 1;
  }

  lemma LeaveKeepsInv(s: State, o: nat)
    requires Inv(s) && o in s.observers
    ensures Inv(Leave(s, o))
  {
    var t := Leave(s, o);
    assert t.observers.Keys == s.observers.Keys - {o};
    assert |t.observers| == |t.observers.Keys| == |s.observers.Keys| - 1 == |s.observers| - 1;
  }

  lemma NextKeepsInv(s: State, step: Step)
    requires Inv(s)
    ensures Inv(Next(s, step))
  {
    match step {
      case Publish => if s.changeSequence < s.committed { WakeKeepsInv(s, true); }
      case NotifyAll => WakeKeepsInv(s, false);
      case Enter(o) => if o !in s.observers && s.slots > 0 { EnterKeepsInv(s, o); }
      case SnapshotFails(o) => if o in s.observers { LeaveKeepsInv(s, o); }
      case Decide(o, reason) => DecideKeepsInv(s, o, reason);
      case ReadSequence(o) => ReadKeepsInv(s, o);
      case ReadSnapshot(o) => ReadKeepsInv(s, o);
      case Park(o) => ParkKeepsInv(s, o);
      case TimeOut(o) => if o in s.observers { SetKeepsInv(s, o, Looping); }
      case _ => FlagsKeepInv(s, step);
    }
  }

  lemma FlagsKeepInv(s: State, step: Step)
    requires Inv(s) && (step == Commit || step == SetDraining || step == Activate || step == Unsubscribe)
    ensures Inv(Next(s, step))
  {
  }

  lemma ReadKeepsInv(s: State, o: nat)
    requires Inv(s)
    ensures Inv(Next(s, ReadSequence(o))) && Inv(Next(s, ReadSnapshot(o)))
  {
    if o in s.observers {
      SetKeepsInv(s, o, Sequenced(s.changeSequence));
      if s.observers[o].Sequenced? { SetKeepsInv(s, o, Looked(s.observers[o].sequence, s.committed)); }
    }
  }

  lemma ParkKeepsInv(s: State, o: nat)
    requires Inv(s)
    ensures Inv(Next(s, Park(o)))
  {
    if o in s.observers && s.observers[o].Ready? {
      var p := s.observers[o];
      SetKeepsInv(s, o, if p.sequence == s.changeSequence then Parked(p.sequence, p.seen) else Looping);
    }
  }

  lemma DecideKeepsInv(s: State, o: nat, reason: bool)
    requires Inv(s)
    ensures Inv(Next(s, Decide(o, reason)))
  {
    if o in s.observers && s.observers[o].Looked? {
      if reason || s.draining { LeaveKeepsInv(s, o); }
      else { SetKeepsInv(s, o, Ready(s.observers[o].sequence, s.observers[o].seen)); }
    }
  }

  lemma {:induction false} RunKeepsInv(s: State, steps: seq<Step>)
    requires Inv(s)
    ensures Inv(Run(s, steps))
    decreases |steps|
  {
    if steps != [] {
      NextKeepsInv(s, steps[0]);
      RunKeepsInv(Next(s, steps[0]), steps[1..]);
    }
  }

  /** No lost wakeup: in every interleaving a parked observer's snapshot reflects every published
      commit, and when all commits are published it reflects the newest one. */
  lemma ParkedMissesNothing(steps: seq<Step>, o: nat)
    ensures var s := Run(Start(), steps);
            o in s.observers && s.observers[o].Parked? ==>
              && s.observers[o].sequence == s.changeSequence
              && s.observers[o].seen >= s.changeSequence
              && (s.changeSequence == s.committed ==> s.observers[o].seen == s.committed)
  {
    RunKeepsInv(Start(), steps);
  }

  /** Publishing a commit leaves nobody parked. */
  lemma PublishWakesAll(s: State, o: nat)
    requires s.subscribed && s.changeSequence < s.committed && o in s.observers
    ensures o in Next(s, Publish).observers && !Next(s, Publish).observers[o].Parked?
  {
    assert WakeAll(s.(changeSequence := s.changeSequence + 1)).observers[o] == Woken(s.observers[o]);
  }

  /** Exactly then the sequence moves, by one, and everybody waiting looks again. Nobody else is disturbed. */
  lemma PublishIff(s: State, o: nat)
    ensures var t := Next(s, Publish);
            && (s.subscribed && s.changeSequence < s.committed <==> t.changeSequence == s.changeSequence + 1)
            && Next(s, Commit) == s.(committed := s.committed + 1) && Start().subscribed
            && (t.changeSequence == s.changeSequence ==> t == s)
            && t.committed == s.committed && t.slots == s.slots && t.draining == s.draining && t.observers.Keys == s.observers.Keys
            && (o in s.observers && !s.observers[o].Parked? ==> t.observers[o] == s.observers[o])
  {
  }

  /** A caller gets a slot exactly when one is free, and none is refused while fewer than 16 are inside. */
  lemma EntersIff(s: State, o: nat)
    requires Inv(s) && o !in s.observers
    ensures o in Next(s, Enter(o)).observers <==> |s.observers| < SLOTS
    ensures |s.observers| == SLOTS ==> Next(s, Enter(o)) == s
  {
  }

  /** A wait is over exactly when there is a reason, or its time or the service's is up: the observer leaves and
      gives its slot back. Otherwise it goes on to park, and does so exactly if nothing was published since. */
  lemma DecidesIff(s: State, o: nat, reason: bool)
    requires o in s.observers
    ensures s.observers[o].Looked? ==>
              var t := Next(s, Decide(o, reason));
              if reason || s.draining then o !in t.observers && t.slots == s.slots + 1
              else t.observers[o] == Ready(s.observers[o].sequence, s.observers[o].seen) && t.slots == s.slots
    ensures s.observers[o].Ready? ==>
              (Next(s, Park(o)).observers[o].Parked? <==> s.observers[o].sequence == s.changeSequence)
    ensures s.observers[o].Parked? ==> Next(s, TimeOut(o)).observers[o].Looping?
    ensures if s.observers[o].Sequenced? then o !in Next(s, SnapshotFails(o)).observers else Next(s, SnapshotFails(o)) == s
    ensures !s.observers[o].Looping? ==> Next(s, ReadSequence(o)) == s
    ensures !s.observers[o].Parked? ==> Next(s, TimeOut(o)) == s
  {
  }

  /** How many sections of its own an observer is from leaving, at most. */
  function Distance(p: Phase): nat {
    match p
    case Looked(_, _) => 1
    case Sequenced(_) => 2
    case Looping => 3
    case Parked(_, _) => 4
    case Ready(_, _) => 5
  }

  /** Every observer inside can leave, and give its slot back, within five sections of its own. */
  lemma LeavesWithin(s: State, o: nat) returns (steps: seq<Step>)
    requires Inv(s) && o in s.observers
    ensures o !in Run(s, steps).observers && Run(s, steps).slots == s.slots + 1
    ensures |steps| <= Distance(s.observers[o]) <= 5
    decreases Distance(s.observers[o])
  {
    var step := match s.observers[o]
      case Looping => ReadSequence(o)
      case Sequenced(_) => ReadSnapshot(o)
      case Looked(_, _) => Decide(o, true)
      case Ready(_, _) => Park(o)
      case Parked(_, _) => TimeOut(o);
    NextKeepsInv(s, step);
    if s.observers[o].Looked? {
      assert Run(s, [step]) == Run(Next(s, step), []);
      steps := [step];
    } else {
      var rest := LeavesWithin(Next(s, step), o);
      steps := [step] + rest;
      assert steps[1..] == rest;
    }
  }

  /** Wait slots are conserved in every run: free slots plus observers inside `wait` is always 16. */
  lemma SlotsConserved(steps: seq<Step>)
    ensures var s := Run(Start(), steps); s.slots + |s.observers| == SLOTS
  {
    RunKeepsInv(Start(), steps);
  }

  // ---------------------------------------------------------------- closing

  /** The service is not activated again. */
  ghost predicate StaysDown(steps: seq<Step>) {
    forall i :: 0 <= i < |steps| ==> steps[i] != Activate
  }

  /** Some continuation without an activation leaves the observer parked. */
  ghost predicate CanStillPark(s: State, o: nat) {
    exists steps :: StaysDown(steps) && ParkedAfter(s, steps, o)
  }

  ghost predicate ParkedAfter(s: State, steps: seq<Step>, o: nat) {
    var t := Run(s, steps);
    o in t.observers && t.observers[o].Parked?
  }

  predicate PastTheCheck(s: State, o: nat) {
    o in s.observers && (s.observers[o].Parked? || (s.observers[o].Ready? && s.observers[o].sequence == s.changeSequence))
  }

  lemma {:induction false} CheckedLateNeverParks(s: State, steps: seq<Step>, o: nat)
    requires s.draining && (o in s.observers && s.observers[o].Ready? ==> s.observers[o].sequence < s.changeSequence)
    requires !(o in s.observers && s.observers[o].Parked?) && StaysDown(steps)
    ensures !ParkedAfter(s, steps, o)
    decreases |steps|
  {
    if steps != [] {
      assert steps[0] != Activate;
      CheckedLateNeverParks(Next(s, steps[0]), steps[1..], o);
    }
  }

  /** What `close` does, in its three sections. */
  function Closed(s: State): State {
    Next(Next(Next(s, SetDraining), Unsubscribe), NotifyAll)
  }

  /** `close` sets `draining` and notifies, but it does not move the change sequence: an observer that passed its
      draining check beforehand still parks and stays until its timeout. After a close that is not followed by
      an activation, exactly those observers can be parked. */
  lemma CloseStrandsIff(s: State, o: nat)
    requires Inv(s)
    ensures CanStillPark(Closed(s), o) <==>
            o in s.observers && s.observers[o].Ready? && s.observers[o].sequence == s.changeSequence
  {
    var t := Closed(s);
    NextKeepsInv(s, SetDraining);
    NextKeepsInv(Next(s, SetDraining), Unsubscribe);
    NextKeepsInv(Next(Next(s, SetDraining), Unsubscribe), NotifyAll);
    DrainingParksIff(t, o);
  }

  /** The same for any state in which the service drains. */
  lemma DrainingParksIff(s: State, o: nat)
    requires Inv(s) && s.draining
    ensures CanStillPark(s, o) <==> PastTheCheck(s, o)
  {
    if PastTheCheck(s, o) {
      if s.observers[o].Parked? {
        assert Run(s, []) == s;
        assert StaysDown([]) && ParkedAfter(s, [], o);
      } else {
        assert Run(s, [Park(o)]) == Run(Next(s, Park(o)), []);
        assert StaysDown([Park(o)]) && ParkedAfter(s, [Park(o)], o);
      }
    } else {
      forall steps | StaysDown(steps) ensures !ParkedAfter(s, steps, o) {
        CheckedLateNeverParks(s, steps, o);
      }
    }
  }

  /** Draining alone excludes nobody: once the service is activated again, every observer inside can park. */
  lemma ActivatedCanPark(s: State, o: nat) returns (steps: seq<Step>)
    requires Inv(s) && o in s.observers
    ensures ParkedAfter(s, steps, o)
  {
    var t := Next(s, Activate);
    NextKeepsInv(s, Activate);
    var rest := AwakeCanPark(t, o);
    steps := [Activate] + rest;
    assert steps[1..] == rest;
  }

  /** From wherever it is: to its decision, to the attempt to park, and once more round if that fails. */
  lemma AwakeCanPark(s: State, o: nat) returns (steps: seq<Step>)
    requires Inv(s) && o in s.observers && !s.draining
    ensures ParkedAfter(s, steps, o)
    decreases match s.observers[o]
              case Ready(q, _) => if q == s.changeSequence then 1 else 6
              case Looked(q, _) => if q == s.changeSequence then 2 else 7
              case Sequenced(q) => if q == s.changeSequence then 3 else 8
              case Looping => 4
              case Parked(_, _) => 0
  {
    if s.observers[o].Parked? {
      steps := [];
    } else {
      var step := match s.observers[o]
        case Looping => ReadSequence(o)
        case Sequenced(_) => ReadSnapshot(o)
        case Looked(_, _) => Decide(o, false)
        case Ready(_, _) => Park(o);
      NextKeepsInv(s, step);
      var rest := AwakeCanPark(Next(s, step), o);
      steps := [step] + rest;
      assert steps[1..] == rest;
    }
  }

  /** One observer decides to wait, the service closes completely, and the observer parks: nothing is left that
      would wake it before its timeout. */
  lemma CloseStrandsAnObserver()
    ensures var waiting := [Enter(0), ReadSequence(0), ReadSnapshot(0), Decide(0, false)];
            var closing := [SetDraining, Unsubscribe, NotifyAll, Park(0)];
            var s := Run(Run(Start(), waiting), closing);
            s.draining && !s.subscribed && 0 in s.observers && s.observers[0].Parked?
  {
    var s := Run(Start(), [Enter(0), ReadSequence(0), ReadSnapshot(0), Decide(0, false)]);
    RunFour(Start(), Enter(0), ReadSequence(0), ReadSnapshot(0), Decide(0, false));
    assert s.observers == map[0 := Ready(0, 0)];
    RunFour(s, SetDraining, Unsubscribe, NotifyAll, Park(0));
  }

  lemma RunFour(s: State, a: Step, b: Step, c: Step, d: Step)
    ensures Run(s, [a, b, c, d]) == Next(Next(Next(Next(s, a), b), c), d)
  {
    assert [a, b, c, d][1..] == [b, c, d] && [b, c, d][1..] == [c, d] && [c, d][1..] == [d];
    assert Run(s, [a, b, c, d]) == Run(Next(s, a), [b, c, d]);
    assert Run(Next(s, a), [b, c, d]) == Run(Next(Next(s, a), b), [c, d]);
    assert Run(Next(Next(s, a), b), [c, d]) == Run(Next(Next(Next(s, a), b), c), [d]);
    assert Run(Next(Next(Next(s, a), b), c), [d]) == Run(Next(Next(Next(Next(s, a), b), c), d), [d][1..]);
  }
}
