/**
 * Two barriers of the application context: the project writer lease, whose
 * acquisition spans two lock sections with the store in between, and the shell
 * execution counter that shutdown drains.
 */
module WriterLease {
  import opened Collections

  /** An acquisition between its first check and its installation. */
  datatype Phase = Checked(project: string) | Granted(project: string, lease: nat)

  /** Where a granted lease is: with the acquisition that got it, in the context's table, popped from the
      table by a release that has yet to call the store, or given back to the store. */
  datatype Place = Flight(caller: nat) | Table(project: string) | Leaving | Back

  datatype Event = Acquired(project: string) | Returned(project: string)

  /** `leases` is the context's table; `callers` are acquisitions in flight; `places` follows every lease
      the store has granted, in order; `log` lists successful acquisitions and effective releases. */
  datatype State = State(leases: map<string, nat>, callers: map<nat, Phase>, places: seq<Place>, log: seq<Event>)

  function Start(): State {
    State(map[], map[], [], [])
  }

  datatype Step =
    | Check(caller: nat, project: string)
    | StoreGrants(caller: nat)
    | StoreBusy(caller: nat)
    | Install(caller: nat)
    | Release(project: string)
    | GiveBack(lease: nat)

  /** The second lock section of an acquisition: a racer that lost gives its lease back. */
  function Installed(s: State, c: nat): State
    requires c in s.callers && s.callers[c].Granted? && s.callers[c].lease < |s.places|
  {
    var Granted(p, lease) := s.callers[c];
    if p in s.leases then s.(callers := s.callers - {c}, places := s.places[lease := Back])
    else State(s.leases[p := lease], s.callers - {c}, s.places[lease := Table(p)], s.log + [Acquired(p)])
  }

  function Popped(s: State, p: string): State
    requires p in s.leases && s.leases[p] < |s.places|
  {
    s.(leases := s.leases - {p}, places := s.places[s.leases[p] := Leaving], log := s.log + [Returned(p)])
  }

  /** The store may grant although the lease is out: it need not be exclusive within one process. */
  function Next(s: State, step: Step): State
    requires Conserved(s)
  {
    match step
    case Check(c, p) => if c !in s.callers && p !in s.leases then s.(callers := s.callers[c := Checked(p)]) else s
    case StoreGrants(c) =>
      if c in s.callers && s.callers[c].Checked?
      then s.(callers := s.callers[c := Granted(s.callers[c].project, |s.places|)], places := s.places + [Flight(c)]) else s
    case StoreBusy(c) => if c in s.callers && s.callers[c].Checked? then s.(callers := s.callers - {c}) else s
    case Install(c) => if c in s.callers && s.callers[c].Granted? then Installed(s, c) else s
    case Release(p) => if p in s.leases then Popped(s, p) else s
    case GiveBack(l) => if l < |s.places| && s.places[l].Leaving? then s.(places := s.places[l := Back]) else s
  }

  /** The table and the acquisitions in flight hold exactly the leases placed with them, each once. */
  predicate Conserved(s: State) {
    && (forall p :: p in s.leases ==> s.leases[p] < |s.places| && s.places[s.leases[p]] == Table(p))
    && (forall c :: c in s.callers && s.callers[c].Granted? ==>
          s.callers[c].lease < |s.places| && s.places[s.callers[c].lease] == Flight(c))
    && (forall l :: 0 <= l < |s.places| && s.places[l].Table? ==>
          s.places[l].project in s.leases && s.leases[s.places[l].project] == l)
    && (forall l :: 0 <= l < |s.places| && s.places[l].Flight? ==>
          s.places[l].caller in s.callers && s.callers[s.places[l].caller].Granted?
          && s.callers[s.places[l].caller].lease == l)
  }

  /** How far a lease has come: it moves from flight to the table, out of it, and back to the store. */
  function Stage(p: Place): nat {
    match p
    case Flight(_) => 0
    case Table(_) => 1
    case Leaving => 2
    case Back => 3
  }

  /** No lease is forgotten, none goes back a stage, and none changes hands within one. */
  predicate StepFollows(s: State, t: State) {
    |s.places| <= |t.places|
    && forall l :: 0 <= l < |s.places| ==> s.places[l] == t.places[l] || Stage(s.places[l]) < Stage(t.places[l])
  }

  function Run(s: State, steps: seq<Step>): (t: State)
    requires Conserved(s)
    ensures Conserved(t)
    decreases |steps|
  {
    if steps == [] then s else
      NextKeepsConserved(s, steps[0]);
      Run(Next(s, steps[0]), steps[1..])
  }

  ghost predicate ReturnedBetween(log: seq<Event>, i: int, j: int, p: string) {
    exists m :: i < m < j && 0 <= m < |log| && log[m] == Returned(p)
  }

  /** Between two acquisitions of a project there is a release; the table holds exactly the open ones. */
  ghost predicate Alternating(s: State) {
    && (forall i, j :: 0 <= i < j < |s.log| && s.log[i].Acquired? && s.log[j] == s.log[i] ==>
          ReturnedBetween(s.log, i, j, s.log[i].project))
    && (forall i :: 0 <= i < |s.log| && s.log[i].Acquired? && s.log[i].project !in s.leases ==>
          ReturnedBetween(s.log, i, |s.log|, s.log[i].project))
  }

  lemma BetweenGrows(log: seq<Event>, e: Event, i: int, j: int, p: string)
    requires ReturnedBetween(log, i, j, p)
    ensures ReturnedBetween(log + [e], i, j, p) && ReturnedBetween(log + [e], i, j + 1, p)
  {
    var m :| i < m < j && 0 <= m < |log| && log[m] == Returned(p);
    assert (log + [e])[m] == Returned(p);
  }

  lemma NextKeepsAlternating(s: State, step: Step)
    requires Conserved(s) && Alternating(s)
    ensures Alternating(Next(s, step))
  {
    var t := Next(s, step);
    if t.log != s.log {
      var e := t.log[|s.log|];
      forall i, j | 0 <= i < j < |t.log| && t.log[i].Acquired? && t.log[j] == t.log[i]
        ensures ReturnedBetween(t.log, i, j, t.log[i].project)
      {
        assert t.log[i] == s.log[i];
        assert ReturnedBetween(s.log, i, j, s.log[i].project);
        BetweenGrows(s.log, e, i, j, s.log[i].project);
      }
      forall i | 0 <= i < |t.log| && t.log[i].Acquired? && t.log[i].project !in t.leases
        ensures ReturnedBetween(t.log, i, |t.log|, t.log[i].project)
      {
        if t.log[i].project == e.project && e.Returned? {
          assert t.log[|s.log|] == Returned(t.log[i].project);
        } else {
          assert ReturnedBetween(s.log, i, |s.log|, s.log[i].project);
          BetweenGrows(s.log, e, i, |s.log|, s.log[i].project);
        }
      }
    }
  }

  lemma InstallKeepsConserved(s: State, c: nat)
    requires Conserved(s) && c in s.callers && s.callers[c].Granted?
    ensures Conserved(Installed(s, c)) && StepFollows(s, Installed(s, c))
  {
  }

  lemma ReleaseKeepsConserved(s: State, p: string)
    requires Conserved(s) && p in s.leases
    ensures Conserved(Popped(s, p)) && StepFollows(s, Popped(s, p))
  {
  }

  lemma NextKeepsConserved(s: State, step: Step)
    requires Conserved(s)
    ensures Conserved(Next(s, step)) && StepFollows(s, Next(s, step))
  {
    match step {
      case Install(c) => if c in s.callers && s.callers[c].Granted? { InstallKeepsConserved(s, c); }
      case Release(p) => if p in s.leases { ReleaseKeepsConserved(s, p); }
      case _ =>
    }
  }

  lemma FollowsOn(s: State, t: State, u: State)
    requires StepFollows(s, t) && StepFollows(t, u)
    ensures StepFollows(s, u)
  {
  }

  /** Under every interleaving, from any consistent state: between two successful acquisitions of a project
      lies a release, no lease is lost, and none is used again or given back twice after leaving the table. */
  lemma {:induction false} OneWriterPerProject(s: State, steps: seq<Step>)
    requires Conserved(s) && Alternating(s)
    ensures Conserved(Run(s, steps)) && Alternating(Run(s, steps)) && StepFollows(s, Run(s, steps))
    decreases |steps|
  {
    if steps != [] {
      NextKeepsConserved(s, steps[0]);
      NextKeepsAlternating(s, steps[0]);
      var t := Next(s, steps[0]);
      OneWriterPerProject(t, steps[1..]);
      FollowsOn(s, t, Run(t, steps[1..]));
    }
  }

  /** What each section decides: a check lets an acquisition on exactly while the project is free; an installation
      wins exactly if it still is, and otherwise only gives its lease back; a release takes the project's lease. */
  lemma SectionsDecide(s: State, c: nat, p: string)
    requires Conserved(s)
    ensures c !in s.callers ==> (c in Next(s, Check(c, p)).callers <==> p !in s.leases)
    ensures c in s.callers && s.callers[c] == Checked(p) ==>
              var t := Next(s, StoreGrants(c));
              t.callers[c] == Granted(p, |s.places|) && t.places == s.places + [Flight(c)] && t.leases == s.leases
    ensures c in s.callers && s.callers[c] == Checked(p) ==> c !in Next(s, StoreBusy(c)).callers
    ensures c in s.callers && s.callers[c].Granted? && s.callers[c].project == p ==>
              var t, lease := Next(s, Install(c)), s.callers[c].lease;
              && c !in t.callers
              && (if p in s.leases then t.leases == s.leases && t.places == s.places[lease := Back] && t.log == s.log
                  else t.leases == s.leases[p := lease] && t.places == s.places[lease := Table(p)] && t.log == s.log + [Acquired(p)])
    ensures p in s.leases ==>
              var t := Next(s, Release(p));
              t.leases == s.leases - {p} && t.places == s.places[s.leases[p] := Leaving] && t.log == s.log + [Returned(p)]
    ensures p !in s.leases ==> Next(s, Release(p)) == s
    ensures forall l: nat ::
              Next(s, GiveBack(l)).places == if l < |s.places| && s.places[l].Leaving? then s.places[l := Back] else s.places
  {
  }

  lemma RunCons(s: State, step: Step, rest: seq<Step>)
    requires Conserved(s)
    ensures Conserved(Next(s, step)) && Run(s, [step] + rest) == Run(Next(s, step), rest)
  {
    NextKeepsConserved(s, step);
    assert ([step] + rest)[1..] == rest;
  }

  /** The context's lease table, one method per lock section. */
  class ProjectWriters {
    var leases: map<string, nat>

    constructor ()
      ensures leases == map[]
    {
      leases := map[];
    }

    /** The first check: whether an acquisition goes on to ask the store. */
    method CheckFree(key: string, ghost s: State, ghost c: nat) returns (free: bool)
      requires Conserved(s) && s.leases == leases && c !in s.callers
      ensures free <==> c in Next(s, Check(c, key)).callers
    {
      free := key !in leases;
    }

    /** Installs the lease unless another acquisition did so first; `own` false means the caller's lease
        is given back and the table is as it was. */
    method InstallLease(key: string, lease: nat, ghost s: State, ghost c: nat) returns (own: bool)
      requires Conserved(s) && s.leases == leases && c in s.callers && s.callers[c] == Granted(key, lease)
      modifies this
      ensures leases == Next(s, Install(c)).leases
      ensures own <==> Next(s, Install(c)).log == s.log + [Acquired(key)]
      ensures own <==> Next(s, Install(c)).places[lease] == Table(key)
      ensures !own <==> Next(s, Install(c)).places[lease] == Back
    {
      if key in leases {
        own := false;
      } else {
        leases := leases[key := lease];
        own := true;
      }
    }

    /** An acquisition that nothing interleaves with; `granted` is the lease the store grants, if it does. */
    method Acquire(key: string, granted: Option<nat>, ghost s: State, ghost c: nat) returns (own: bool)
      requires Conserved(s) && s.leases == leases && c !in s.callers && (granted.Some? ==> granted.value == |s.places|)
      modifies this
      ensures own <==> key !in old(leases) && granted.Some?
      ensures leases == if own then old(leases)[key := granted.value] else old(leases)
    {
      var free := CheckFree(key, s, c);
      if !free || granted.None? { return false; }
      ghost var checked := Next(s, Check(c, key));
      NextKeepsConserved(s, Check(c, key));
      ghost var asked := Next(checked, StoreGrants(c));
      NextKeepsConserved(checked, StoreGrants(c));
      own := InstallLease(key, granted.value, asked, c);
    }

    /** Pops the project's lease, to be released outside the lock. */
    method PopLease(key: string, ghost s: State) returns (popped: bool, lease: nat)
      requires Conserved(s) && s.leases == leases
      modifies this
      ensures leases == Next(s, Release(key)).leases
      ensures popped <==> key in s.leases
      ensures popped ==> Next(Next(s, Release(key)), GiveBack(lease)).places == s.places[s.leases[key] := Back]
    {
      NextKeepsConserved(s, Release(key));
      popped, lease := key in leases, 0;
      if popped {
        lease := leases[key];
        leases := leases - {key};
      }
    }
  }
}

module ShellBarrier {

  import opened Collections

  /** `count` is the context's counter; `holder` is a begin section that has read the shutdown flag as clear
      and still holds the condition; `running` are the executions that began and have not ended; `drained`
      says that the shutdown wait has returned true after the flag was set. */
  datatype State = State(closing: bool, count: nat, holder: Option<nat>, running: set<nat>, drained: bool)

  function Start(): State {
    State(false, 0, None, {}, false)
  }

  datatype Step = RequestClose | BeginReads(who: nat) | BeginRegisters | End(who: nat) | WaitReturns

  /** The counter after an execution ends: it never falls below zero. */
  function Fewer(count: nat): nat {
    if count > 0 then count - 1 else 0
  }

  /** The flag is set without the condition; every other step needs it. An execution ends once, after it
      began. */
  function Next(s: State, step: Step): State {
    match step
    case RequestClose => s.(closing := true)
    case BeginReads(c) => if s.holder.None? && !s.closing && c !in s.running then s.(holder := Some(c)) else s
    case BeginRegisters =>
      if s.holder.Some? then s.(holder := None, running := s.running + {s.holder.value}, count := s.count + 1) else s
    case End(c) =>
      if s.holder.None? && c in s.running then s.(running := s.running - {c}, count := Fewer(s.count)) else s
    case WaitReturns => if s.holder.None? && s.closing && s.count == 0 then s.(drained := true) else s
  }

  function Run(s: State, steps: seq<Step>): State
    decreases |steps|
  {
    if steps == [] then s else Run(Next(s, steps[0]), steps[1..])
  }

  /** The counter counts the executions, and after the drain there are none. */
  ghost predicate Quiet(s: State) {
    && s.count == |s.running|
    && (s.holder.Some? ==> s.holder.value !in s.running)
    && (s.drained ==> s.closing && s.holder.None? && s.running == {})
  }

  /** Once shutdown was requested and the barrier returned true, no execution is or ever becomes registered,
      although the flag is set outside the condition and a begin may be past its check. */
  lemma {:induction false} DrainedForGood(s: State, steps: seq<Step>)
    requires Quiet(s)
    ensures Quiet(Run(s, steps)) && (s.drained ==> Run(s, steps).drained && Run(s, steps).running == {})
    decreases |steps|
  {
    if steps != [] { DrainedForGood(Next(s, steps[0]), steps[1..]); }
  }

  /** Until shutdown is requested every execution may begin; afterwards none does, and the barrier returns exactly
      when the last one has ended. */
  lemma BarrierDecides(s: State, c: nat)
    requires Quiet(s) && s.holder.None?
    ensures c !in s.running ==> (Next(Next(s, BeginReads(c)), BeginRegisters).running == if s.closing then s.running else s.running + {c})
    ensures c in s.running ==> Next(s, End(c)).running == s.running - {c} && Next(s, End(c)).count == s.count - 1
    ensures !s.drained ==> (Next(s, WaitReturns).drained <==> s.closing && s.running == {})
    ensures Quiet(Start()) && !Start().closing && !Start().drained && Start().holder.None?
  {
  }

  lemma RunCons(s: State, step: Step, rest: seq<Step>)
    ensures Run(s, [step] + rest) == Run(Next(s, step), rest)
  {
    assert ([step] + rest)[1..] == rest;
  }

  /** The counter under its condition; `closing` is written by shutdown without it. */
  class ShellExecutions {
    var closing: bool
    var count: nat

    constructor ()
      ensures !closing && count == 0
    {
      closing, count := false, 0;
    }

    method Begin(ghost s: State, ghost c: nat) returns (ok: bool)
      requires s.closing == closing && s.count == count && s.holder.None? && c !in s.running
      modifies this`count
      ensures count == Next(Next(s, BeginReads(c)), BeginRegisters).count
      ensures ok <==> c in Next(Next(s, BeginReads(c)), BeginRegisters).running
    {
      ok := !closing;
      if ok { count := count + 1; }
    }

    method End(ghost s: State, ghost c: nat)
      requires s.count == count && s.holder.None? && c in s.running
      modifies this`count
      ensures count == Next(s, Step.End(c)).count
    {
      count := if count > 0 then count - 1 else 0;
    }
  }
}
