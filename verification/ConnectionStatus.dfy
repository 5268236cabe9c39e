/**
 * Status probes of provider connections. A probe runs outside the lock; its
 * result is published under the lock only while its future is still the
 * provider's current one. `wait_for` publishes too, with a generation and
 * revision it reads late.
 */
module ConnectionStatus {

  import opened Collections

  datatype Health = Unknown | Checking | Ready | Unavailable | Blocked

  datatype Snapshot = Snapshot(health: Health, stale: bool, error: string, data: string)

  /** A submitted probe: what its done-callback captured, and its result once it is done. */
  datatype Probe = Probe(provider: string, revision: string, generation: nat, result: Option<Snapshot>)

  /** Futures are indices into `probes`. `earned` (provider, revision and data of every success) and
      `published` (futures whose result was shown) are history. */
  datatype State = State(
    snapshots: map<string, Snapshot>,
    lastGood: map<string, (string, Snapshot)>,
    futures: map<string, nat>,
    revisions: map<string, string>,
    generations: map<string, nat>,
    closed: bool,
    probes: seq<Probe>,
    earned: set<(string, string, string)>,
    published: seq<nat>)

  function Start(): State {
    State(map[], map[], map[], map[], map[], false, [], {}, [])
  }

  function Current(s: State, p: string): Snapshot {
    if p in s.snapshots then s.snapshots[p] else Snapshot(Unknown, false, "", "")
  }

  predicate Busy(s: State, p: string, revision: string) {
    && p in s.futures && s.futures[p] < |s.probes| && s.probes[s.futures[p]].result.None?
    && (p in s.revisions && s.revisions[p] == revision)
  }

  function NextGeneration(s: State, p: string): nat {
    (if p in s.generations then s.generations[p] else 0) + 1
  }

  predicate SameRevision(s: State, p: string, revision: string) {
    p in s.revisions && s.revisions[p] == revision
  }

  /** What is shown while the probe runs. */
  function Pending(s: State, p: string, revision: string): Snapshot {
    if SameRevision(s, p, revision) && Current(s, p).health == Ready then Current(s, p).(stale := true)
    else Snapshot(Checking, false, "", "")
  }

  function KeptGood(s: State, p: string, revision: string): map<string, (string, Snapshot)> {
    if SameRevision(s, p, revision) then s.lastGood else s.lastGood - {p}
  }

  function Submit(s: State, p: string, revision: string): State {
    if s.closed || Busy(s, p, revision) then s
    else
      s.(generations := s.generations[p := NextGeneration(s, p)],
         lastGood := KeptGood(s, p, revision),
         revisions := s.revisions[p := revision],
         snapshots := s.snapshots[p := Pending(s, p, revision)],
         probes := s.probes + [Probe(p, revision, NextGeneration(s, p), None)],
         futures := s.futures[p := |s.probes|])
  }

  /** A probe finishes with one of the three states a connector may report. */
  function Complete(s: State, f: nat, result: Snapshot): State {
    if f < |s.probes| && s.probes[f].result.None? && result.health in {Ready, Unavailable, Blocked}
    then
      var probe := s.probes[f];
      s.(probes := s.probes[f := probe.(result := Some(result))],
         earned := if result.health == Ready then s.earned + {(probe.provider, probe.revision, result.data)} else s.earned)
    else s
  }

  /** The failed probe falls back on the last success of the same revision. */
  function Shown(s: State, p: string, revision: string, result: Snapshot): Snapshot {
    if result.health == Unavailable && result.error != "" && p in s.lastGood && s.lastGood[p].0 == revision
    then result.(health := Ready, stale := true, data := s.lastGood[p].1.data)
    else result
  }

  predicate Accepts(s: State, p: string, revision: string, generation: nat, f: nat, listed: bool) {
    && !s.closed && (p in s.futures && s.futures[p] == f) && (p in s.generations && s.generations[p] == generation)
    && (p in s.revisions && s.revisions[p] == revision) && listed
  }

  /** `_publish` of a finished future by either caller; `listed` is "known and enabled". */
  function Publish(s: State, p: string, revision: string, generation: nat, f: nat, listed: bool): State {
    if f >= |s.probes| || s.probes[f].result.None? || !Accepts(s, p, revision, generation, f, listed) then s
    else
      var result := s.probes[f].result.value;
      s.(lastGood := if result.health == Ready then s.lastGood[p := (revision, result)] else s.lastGood,
         snapshots := s.snapshots[p := Shown(s, p, revision, result)],
         futures := s.futures - {p},
         published := s.published + [f])
  }

  /** Explicit discovery replaces whatever was known or running. */
  function Observe(s: State, p: string, revision: string, snapshot: Snapshot): State {
    if s.closed || snapshot.health !in {Ready, Unavailable, Blocked} then s
    else
      s.(generations := s.generations[p := NextGeneration(s, p)],
         futures := s.futures - {p},
         revisions := s.revisions[p := revision],
         snapshots := s.snapshots[p := snapshot],
         lastGood := if snapshot.health == Ready then s.lastGood[p := (revision, snapshot)] else s.lastGood - {p},
         earned := if snapshot.health == Ready then s.earned + {(p, revision, snapshot.data)} else s.earned)
  }

  function Close(s: State): State {
    s.(closed := true, futures := if s.closed then s.futures else map[])
  }

  datatype Step =
    | SubmitStep(provider: string, revision: string)
    | CompleteStep(future: nat, result: Snapshot)
    | PublishStep(provider: string, revision: string, generation: nat, future: nat, listed: bool)
    | ObserveStep(provider: string, revision: string, snapshot: Snapshot)
    | CloseStep

  function Next(s: State, step: Step): State {
    match step
    case SubmitStep(p, revision) => Submit(s, p, revision)
    case CompleteStep(f, result) => Complete(s, f, result)
    case PublishStep(p, revision, generation, f, listed) => Publish(s, p, revision, generation, f, listed)
    case ObserveStep(p, revision, snapshot) => Observe(s, p, revision, snapshot)
    case CloseStep => Close(s)
  }

  function Run(s: State, steps: seq<Step>): State
    decreases |steps|
  {
    if steps == [] then s else Run(Next(s, steps[0]), steps[1..])
  }

  // ------------------------------------------------------------- invariant

  /** The data comes from a success of this provider at this revision. */
  ghost predicate Earned(s: State, p: string, revision: string, data: string) {
    (p, revision, data) in s.earned
  }

  /** Every successful probe has been recorded. */
  ghost predicate Recorded(s: State) {
    forall f :: 0 <= f < |s.probes| && s.probes[f].result.Some? && s.probes[f].result.value.health == Ready ==>
      Earned(s, s.probes[f].provider, s.probes[f].revision, s.probes[f].result.value.data)
  }

  /** The current future is the one whose captured generation and revision are current. */
  ghost predicate FuturesCurrent(s: State) {
    forall p :: p in s.futures ==>
      && s.futures[p] < |s.probes| && s.probes[s.futures[p]].provider == p
      && (p in s.revisions && s.revisions[p] == s.probes[s.futures[p]].revision)
      && (p in s.generations && s.generations[p] == s.probes[s.futures[p]].generation)
  }

  ghost predicate LastGoodCurrent(s: State) {
    forall p :: p in s.lastGood ==>
      && (p in s.revisions && s.revisions[p] == s.lastGood[p].0)
      && s.lastGood[p].1.health == Ready && Earned(s, p, s.lastGood[p].0, s.lastGood[p].1.data)
  }

  ghost predicate ReadyIsEarned(s: State) {
    forall p :: p in s.snapshots && s.snapshots[p].health == Ready ==>
      p in s.revisions && Earned(s, p, s.revisions[p], s.snapshots[p].data)
  }

  ghost predicate PublishedOnce(s: State) {
    && (forall i, j :: 0 <= i < j < |s.published| ==> s.published[i] != s.published[j])
    && (forall i :: 0 <= i < |s.published| ==> s.published[i] < |s.probes|)
    && (forall p :: p in s.futures ==> s.futures[p] !in s.published)
  }

  ghost predicate Inv(s: State) {
    Recorded(s) && FuturesCurrent(s) && LastGoodCurrent(s) && ReadyIsEarned(s) && PublishedOnce(s)
  }

  lemma SubmitKeepsInv(s: State, p: string, revision: string)
    requires Inv(s)
    ensures Inv(Submit(s, p, revision))
  {
    SubmitKeepsFutures(s, p, revision);
    SubmitKeepsSnapshots(s, p, revision);
  }

  lemma SubmitKeepsFutures(s: State, p: string, revision: string)
    requires Recorded(s) && FuturesCurrent(s) && PublishedOnce(s)
    ensures Recorded(Submit(s, p, revision)) && FuturesCurrent(Submit(s, p, revision)) && PublishedOnce(Submit(s, p, revision))
  {
  }

  lemma SubmitKeepsSnapshots(s: State, p: string, revision: string)
    requires LastGoodCurrent(s) && ReadyIsEarned(s)
    ensures LastGoodCurrent(Submit(s, p, revision)) && ReadyIsEarned(Submit(s, p, revision))
  {
  }

  lemma CompleteKeepsInv(s: State, f: nat, result: Snapshot)
    requires Inv(s)
    ensures Inv(Complete(s, f, result))
  {
  }

  lemma PublishKeepsInv(s: State, p: string, revision: string, generation: nat, f: nat, listed: bool)
    requires Inv(s)
    ensures Inv(Publish(s, p, revision, generation, f, listed))
  {
    PublishKeepsFutures(s, p, revision, generation, f, listed);
    PublishKeepsSnapshots(s, p, revision, generation, f, listed);
  }

  lemma PublishKeepsFutures(s: State, p: string, revision: string, generation: nat, f: nat, listed: bool)
    requires Recorded(s) && FuturesCurrent(s) && PublishedOnce(s)
    ensures var t := Publish(s, p, revision, generation, f, listed); Recorded(t) && FuturesCurrent(t) && PublishedOnce(t)
  {
  }

  lemma PublishKeepsSnapshots(s: State, p: string, revision: string, generation: nat, f: nat, listed: bool)
    requires Recorded(s) && FuturesCurrent(s) && LastGoodCurrent(s) && ReadyIsEarned(s)
    ensures var t := Publish(s, p, revision, generation, f, listed); LastGoodCurrent(t) && ReadyIsEarned(t)
  {
  }

  lemma ObserveKeepsInv(s: State, p: string, revision: string, snapshot: Snapshot)
    requires Inv(s)
    ensures Inv(Observe(s, p, revision, snapshot))
  {
    ObserveKeepsFutures(s, p, revision, snapshot);
    ObserveKeepsSnapshots(s, p, revision, snapshot);
  }

  lemma ObserveKeepsFutures(s: State, p: string, revision: string, snapshot: Snapshot)
    requires Recorded(s) && FuturesCurrent(s) && PublishedOnce(s)
    ensures var t := Observe(s, p, revision, snapshot); Recorded(t) && FuturesCurrent(t) && PublishedOnce(t)
  {
  }

  lemma ObserveKeepsSnapshots(s: State, p: string, revision: string, snapshot: Snapshot)
    requires LastGoodCurrent(s) && ReadyIsEarned(s)
    ensures var t := Observe(s, p, revision, snapshot); LastGoodCurrent(t) && ReadyIsEarned(t)
  {
  }

  lemma NextKeepsInv(s: State, step: Step)
    requires Inv(s)
    ensures Inv(Next(s, step))
  {
    match step {
      case SubmitStep(p, revision) => SubmitKeepsInv(s, p, revision);
      case CompleteStep(f, result) => CompleteKeepsInv(s, f, result);
      case PublishStep(p, revision, generation, f, listed) => PublishKeepsInv(s, p, revision, generation, f, listed);
      case ObserveStep(p, revision, snapshot) => ObserveKeepsInv(s, p, revision, snapshot);
      case CloseStep =>
    }
  }

  /** In every run: last-good data belongs to the current revision, a ready status carries data of a
      success at that revision, and no probe publishes twice. */
  lemma {:induction false} RunKeepsInv(s: State, steps: seq<Step>)
    requires Inv(s)
    ensures Inv(Run(s, steps))
    decreases |steps|
  {
    if steps != [] {
      NextKeepsInv(s, steps[0]);
      RunKeepsInv(Next(s, steps[0]), steps[1..]);
    }
  }

  lemma EveryRunIsConsistent(steps: seq<Step>)
    ensures Inv(Run(Start(), steps))
  {
    RunKeepsInv(Start(), steps);
  }

  // ------------------------------------------------------ superseded probes

  predicate IsCurrent(s: State, f: nat) {
    exists p :: p in s.futures && s.futures[p] == f
  }

  lemma StaysSuperseded(s: State, step: Step, f: nat)
    requires f < |s.probes| && !IsCurrent(s, f)
    ensures f < |Next(s, step).probes| && !IsCurrent(Next(s, step), f)
  {
    var t := Next(s, step);
    forall p | p in t.futures ensures t.futures[p] != f {
      assert t.futures[p] == |s.probes| || (p in s.futures && t.futures[p] == s.futures[p]);
    }
  }

  /** Once a submitted probe is not current it never is again. */
  lemma {:induction false} SupersededForGood(s: State, steps: seq<Step>, f: nat)
    requires f < |s.probes| && !IsCurrent(s, f)
    ensures !IsCurrent(Run(s, steps), f)
    decreases |steps|
  {
    if steps != [] {
      StaysSuperseded(s, steps[0], f);
      SupersededForGood(Next(s, steps[0]), steps[1..], f);
    }
  }

  /** A probe replaced by a newer submit, an observation, a publication or close changes nothing,
      whenever it finishes and whatever generation and revision its publisher presents. */
  lemma SupersededChangesNothing(s: State, steps: seq<Step>, p: string, revision: string, generation: nat, f: nat, listed: bool)
    requires f < |s.probes| && !IsCurrent(s, f)
    ensures var t := Run(s, steps); Publish(t, p, revision, generation, f, listed) == t
  {
    SupersededForGood(s, steps, f);
    var t := Run(s, steps);
    assert !(p in t.futures && t.futures[p] == f);
  }

  /** What supersedes: every newer submit that runs, every observation, and close. */
  lemma Supersedes(s: State, p: string, revision: string, snapshot: Snapshot, f: nat)
    requires Inv(s) && (p in s.futures && s.futures[p] == f)
    ensures !s.closed && !Busy(s, p, revision) ==> !IsCurrent(Submit(s, p, revision), f)
    ensures !s.closed && snapshot.health in {Ready, Unavailable, Blocked} ==> !IsCurrent(Observe(s, p, revision, snapshot), f)
    ensures !s.closed ==> !IsCurrent(Close(s), f)
  {
  }

  /** A probe that is still current does publish, once; its status is ready exactly when it succeeded or has
      an earlier success of this revision to fall back on, and no other provider is touched. */
  lemma CurrentPublishes(s: State, p: string, f: nat)
    requires Inv(s) && !s.closed && f < |s.probes| && s.probes[f].result.Some? && p in s.futures && s.futures[p] == f
    ensures var result := s.probes[f].result.value;
            var t := Publish(s, p, s.probes[f].revision, s.probes[f].generation, f, true);
            && t.published == s.published + [f] && !IsCurrent(t, f) && p in t.snapshots
            && (t.snapshots[p].health == Ready <==>
                  result.health == Ready || (result.health == Unavailable && result.error != "" && p in s.lastGood))
            && (t.snapshots[p].health == Ready && result.health != Ready ==>
                  t.snapshots[p] == Snapshot(Ready, true, result.error, s.lastGood[p].1.data))
            && (t.snapshots[p].health != Ready || result.health == Ready ==> t.snapshots[p] == result)
            && (if result.health == Ready then p in t.lastGood && t.lastGood[p] == (s.probes[f].revision, result)
                else t.lastGood == s.lastGood)
            && t.probes == s.probes && t.revisions == s.revisions && t.generations == s.generations
            && (forall q :: q != p ==> SameFor(s, t, q))
  {
  }

  /** What a submitted probe captured never changes. */
  ghost predicate ProbesKept(s: State, t: State) {
    |s.probes| <= |t.probes| && forall f :: 0 <= f < |s.probes| ==>
      && t.probes[f].provider == s.probes[f].provider && t.probes[f].revision == s.probes[f].revision
      && t.probes[f].generation == s.probes[f].generation
  }

  lemma NextKeepsProbes(s: State, step: Step)
    ensures ProbesKept(s, Next(s, step))
  {
  }

  lemma {:induction false} RunKeepsProbes(s: State, steps: seq<Step>)
    ensures ProbesKept(s, Run(s, steps))
    decreases |steps|
  {
    if steps != [] {
      NextKeepsProbes(s, steps[0]);
      RunKeepsProbes(Next(s, steps[0]), steps[1..]);
    }
  }

  function RevisionOf(s: State, p: string): string {
    if p in s.revisions then s.revisions[p] else ""
  }

  function GenerationOf(s: State, p: string): nat {
    if p in s.generations then s.generations[p] else 0
  }

  /** The late reads of `wait_for` are harmless, although anything may happen between them and its publication:
      if the future is still current by then, they were what the callback captured, so both callers publish the
      same state; otherwise neither changes anything. */
  lemma WaitForAgreesWithCallback(s: State, p: string, f: nat, steps: seq<Step>, listed: bool)
    requires Inv(s) && f < |s.probes| && s.probes[f].provider == p
    ensures var t := Run(s, steps);
            Publish(t, p, RevisionOf(s, p), GenerationOf(s, p), f, listed)
            == Publish(t, p, s.probes[f].revision, s.probes[f].generation, f, listed)
  {
    var t := Run(s, steps);
    if IsCurrent(s, f) {
      assert s.futures[p] == f;
    } else {
      SupersededChangesNothing(s, steps, p, RevisionOf(s, p), GenerationOf(s, p), f, listed);
      SupersededChangesNothing(s, steps, p, s.probes[f].revision, s.probes[f].generation, f, listed);
    }
  }

  /** And what the callback captured is what decides: it publishes exactly while its future is current. */
  lemma CallbackPublishesIff(s: State, p: string, f: nat, steps: seq<Step>)
    requires Inv(s) && f < |s.probes| && s.probes[f].provider == p
    ensures var t := Run(s, steps);
            && f < |t.probes|
            && (Publish(t, p, s.probes[f].revision, s.probes[f].generation, f, true) != t <==>
                  IsCurrent(t, f) && t.probes[f].result.Some? && !t.closed)
  {
    var t := Run(s, steps);
    RunKeepsInv(s, steps);
    RunKeepsProbes(s, steps);
    if IsCurrent(t, f) && t.probes[f].result.Some? && !t.closed {
      CurrentPublishes(t, p, f);
    }
  }

  /** After both callers, in either order, the probe has been published once at most. */
  lemma SecondPublisherIsIdle(s: State, p: string, f: nat, listed: bool, revision: string, generation: nat, late: bool)
    requires Inv(s) && f < |s.probes| && s.probes[f].provider == p
    ensures var t := Publish(s, p, s.probes[f].revision, s.probes[f].generation, f, listed);
            t != s ==> Publish(t, p, revision, generation, f, late) == t
  {
  }

  // ----------------------------------------------------- what each section does

  predicate SameAt<T(==)>(a: map<string, T>, b: map<string, T>, q: string) {
    (q in a <==> q in b) && (q in a ==> a[q] == b[q])
  }

  /** Nothing about the provider differs. */
  predicate SameFor(s: State, t: State, q: string) {
    && SameAt(s.snapshots, t.snapshots, q) && SameAt(s.lastGood, t.lastGood, q) && SameAt(s.futures, t.futures, q)
    && SameAt(s.revisions, t.revisions, q) && SameAt(s.generations, t.generations, q)
  }

  /** A submit starts a new probe, which becomes the current one, unless one of this revision still runs. A ready
      status of this revision goes on being shown, as stale, and its last success is kept; a new revision starts
      from nothing. */
  lemma SubmitStarts(s: State, p: string, revision: string)
    requires FuturesCurrent(s)
    ensures var t := Submit(s, p, revision);
            var same := p in s.revisions && s.revisions[p] == revision;
            if s.closed || (same && p in s.futures && s.probes[s.futures[p]].result.None?) then t == s
            else
              && t.probes == s.probes + [Probe(p, revision, GenerationOf(s, p) + 1, None)]
              && p in t.futures && t.futures[p] == |s.probes|
              && RevisionOf(t, p) == revision && GenerationOf(t, p) == GenerationOf(s, p) + 1
              && Current(t, p) == (if same && Current(s, p).health == Ready then Current(s, p).(stale := true)
                                   else Snapshot(Checking, false, "", ""))
              && (p in t.lastGood <==> same && p in s.lastGood) && (p in t.lastGood ==> t.lastGood[p] == s.lastGood[p])
              && !t.closed && t.earned == s.earned && t.published == s.published && forall q :: q != p ==> SameFor(s, t, q)
  {
  }

  /** An observation is what is shown from then on; it is the last success or ends it, and no probe is current. */
  lemma ObserveShows(s: State, p: string, revision: string, snapshot: Snapshot)
    requires !s.closed && (snapshot.health == Ready || snapshot.health == Unavailable || snapshot.health == Blocked)
    ensures var t := Observe(s, p, revision, snapshot);
            && p in t.snapshots && t.snapshots[p] == snapshot && p !in t.futures
            && RevisionOf(t, p) == revision && GenerationOf(t, p) == GenerationOf(s, p) + 1
            && (p in t.lastGood <==> snapshot.health == Ready) && (p in t.lastGood ==> t.lastGood[p] == (revision, snapshot))
            && !t.closed && t.probes == s.probes && t.published == s.published && forall q :: q != p ==> SameFor(s, t, q)
  {
  }

  /** A probe finishes once, with the first result, which is then what its publishers present. */
  lemma CompleteRecords(s: State, f: nat, result: Snapshot)
    requires f < |s.probes|
    ensures result.health == Unknown || result.health == Checking ==> Complete(s, f, result) == s
    ensures result.health == Ready || result.health == Unavailable || result.health == Blocked ==>
            var t := Complete(s, f, result);
            && t == s.(probes := t.probes, earned := t.earned) && |t.probes| == |s.probes|
            && t.probes[f] == s.probes[f].(result := Some(if s.probes[f].result.None? then result else s.probes[f].result.value))
            && (forall g :: 0 <= g < |s.probes| && g != f ==> t.probes[g] == s.probes[g])
  {
  }

  /** Undisturbed, what a probe finds is shown: from an open coordinator in which none runs, and so from the start. */
  lemma UndisturbedShows(s: State, p: string, revision: string, result: Snapshot)
    requires Inv(s) && !s.closed && p !in s.futures && result.health == Ready
    ensures var started := Submit(s, p, revision);
            var done := Complete(started, |s.probes|, result);
            var t := Publish(done, p, revision, GenerationOf(s, p) + 1, |s.probes|, true);
            && t.snapshots.Keys == s.snapshots.Keys + {p} && t.snapshots[p] == result
            && p in t.lastGood && t.lastGood[p] == (revision, result) && p !in t.futures
  {
    SubmitKeepsInv(s, p, revision);
    SubmitStarts(s, p, revision);
    var started := Submit(s, p, revision);
    assert started.snapshots.Keys == s.snapshots.Keys + {p};
    CurrentCompletes(started, p, |s.probes|, result);
  }

  lemma StartsOpen(p: string)
    ensures Inv(Start()) && !Start().closed && Start().futures == map[] && Current(Start(), p).health == Unknown
  {
  }

  lemma CurrentCompletes(s: State, p: string, f: nat, result: Snapshot)
    requires Inv(s) && !s.closed && f < |s.probes| && s.probes[f].result.None? && p in s.futures && s.futures[p] == f
    requires result.health == Ready
    ensures var done := Complete(s, f, result);
            var t := Publish(done, p, s.probes[f].revision, s.probes[f].generation, f, true);
            && t.snapshots == s.snapshots[p := result]
            && p in t.lastGood && t.lastGood[p] == (s.probes[f].revision, result) && p !in t.futures
  {
    CompleteKeepsInv(s, f, result);
    CompleteRecords(s, f, result);
    var done := Complete(s, f, result);
    assert done.probes[f] == s.probes[f].(result := Some(result));
  }

  /** After close nothing that is shown changes any more. */
  lemma {:induction false} CloseFreezes(s: State, steps: seq<Step>)
    requires s.closed
    ensures Run(s, steps) == s.(probes := Run(s, steps).probes, earned := Run(s, steps).earned)
    decreases |steps|
  {
    if steps != [] {
      assert Next(s, steps[0]) == s.(probes := Next(s, steps[0]).probes, earned := Next(s, steps[0]).earned);
      CloseFreezes(Next(s, steps[0]), steps[1..]);
    }
  }

  lemma CloseForgets(s: State, steps: seq<Step>)
    requires !s.closed
    ensures var t := Run(Close(s), steps);
            t.closed && t.futures == map[] && t.snapshots == s.snapshots && t.lastGood == s.lastGood
  {
    CloseFreezes(Close(s), steps);
  }

  // --------------------------------------------------------------- object

  class Coordinator {
    var snapshots: map<string, Snapshot>
    var lastGood: map<string, (string, Snapshot)>
    var futures: map<string, nat>
    var revisions: map<string, string>
    var generations: map<string, nat>
    var closed: bool
    var probes: seq<Probe>
    ghost var earned: set<(string, string, string)>
    ghost var published: seq<nat>

    ghost function View(): State
      reads this
    {
      State(snapshots, lastGood, futures, revisions, generations, closed, probes, earned, published)
    }

    constructor ()
      ensures View() == Start()
    {
      snapshots, lastGood, futures, revisions, generations := map[], map[], map[], map[], map[];
      closed, probes, earned, published := false, [], {}, [];
    }

    method SubmitProbe(p: string, revision: string)
      modifies this
      ensures View() == Submit(old(View()), p, revision)
    {
      if closed { return; }
      if p in futures && futures[p] < |probes| && probes[futures[p]].result.None? && p in revisions && revisions[p] == revision { return; }
      var same := p in revisions && revisions[p] == revision;
      var generation := (if p in generations then generations[p] else 0) + 1;
      var good := if same then lastGood else lastGood - {p};
      var pending := Snapshot(Checking, false, "", "");
      if same && p in snapshots && snapshots[p].health == Ready {
        pending := snapshots[p].(stale := true);
      }
      assert pending == Pending(View(), p, revision) && good == KeptGood(View(), p, revision);
      Install(p, revision, generation, pending, good);
    }

    method Install(p: string, revision: string, generation: nat, pending: Snapshot, good: map<string, (string, Snapshot)>)
      modifies this
      ensures View() == old(View()).(
        generations := old(generations)[p := generation], lastGood := good, revisions := old(revisions)[p := revision],
        snapshots := old(snapshots)[p := pending], probes := old(probes) + [Probe(p, revision, generation, None)],
        futures := old(futures)[p := |old(probes)|])
    {
      lastGood := good;
      generations, revisions := generations[p := generation], revisions[p := revision];
      snapshots, futures := snapshots[p := pending], futures[p := |probes|];
      probes := probes + [Probe(p, revision, generation, None)];
    }

    method PublishResult(p: string, revision: string, generation: nat, f: nat, listed: bool)
      requires f < |probes| && probes[f].result.Some?
      modifies this
      ensures View() == Publish(old(View()), p, revision, generation, f, listed)
    {
      var snapshot := probes[f].result.value;
      if closed || !(p in futures && futures[p] == f) || !(p in generations && generations[p] == generation)
         || !(p in revisions && revisions[p] == revision) || !listed {
        return;
      }
      if snapshot.health == Ready {
        lastGood := lastGood[p := (revision, snapshot)];
      } else if snapshot.health == Unavailable && snapshot.error != "" {
        if p in lastGood && lastGood[p].0 == revision {
          snapshot := snapshot.(health := Ready, stale := true, data := lastGood[p].1.data);
        }
      }
      snapshots := snapshots[p := snapshot];
      futures := futures - {p};
      published := published + [f];
    }

    method ObserveCatalog(p: string, revision: string, snapshot: Snapshot)
      requires snapshot.health in {Ready, Unavailable, Blocked}
      modifies this
      ensures View() == Observe(old(View()), p, revision, snapshot)
    {
      if closed { return; }
      var generation := (if p in generations then generations[p] else 0) + 1;
      Replace(p, revision, generation, snapshot);
      if snapshot.health == Ready {
        lastGood := lastGood[p := (revision, snapshot)];
        earned := earned + {(p, revision, snapshot.data)};
      } else {
        lastGood := lastGood - {p};
      }
    }

    method Replace(p: string, revision: string, generation: nat, snapshot: Snapshot)
      modifies this`generations, this`futures, this`revisions, this`snapshots
      ensures View() == old(View()).(
        generations := old(generations)[p := generation], futures := old(futures) - {p},
        revisions := old(revisions)[p := revision], snapshots := old(snapshots)[p := snapshot])
    {
      generations, futures := generations[p := generation], futures - {p};
      revisions, snapshots := revisions[p := revision], snapshots[p := snapshot];
    }

    method Shutdown()
      modifies this`closed, this`futures
      ensures View() == Close(old(View()))
    {
      if closed { return; }
      closed := true;
      futures := map[];
    }
  }
}
