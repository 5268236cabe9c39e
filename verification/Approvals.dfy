/**
 * Shell approvals: the durable decision, the cards in memory with their
 * generation stamps, tickets, and the spawn gate that Stop shares with claims
 * and spawns. `pending` is an insertion-ordered dictionary.
 */
module Approvals {

  import opened Collections
  import Runs = RunRegistry

  /** A card in memory: its place in the history of additions, its owner, the run its ticket would ask the stop
      flag of, which need not be stated, its session, and its generation stamp. */
  datatype Record = Record(serial: nat, run: string, source: string, session: string, stamp: nat)

  type Pending = seq<(string, Record)>

  /** What an expiry selects; an empty string is no filter. */
  datatype Filter = Filter(run: string, exclude: string, session: string)

  predicate Unfiltered(f: Filter) {
    f.run == "" && f.exclude == "" && f.session == ""
  }

  predicate Matches(f: Filter, r: Record) {
    && (f.run != "" ==> r.run == f.run)
    && (f.exclude != "" ==> r.run != f.exclude)
    && (f.session != "" ==> r.session == f.session)
  }

  function Selected(p: Pending, f: Filter, wanted: bool): Pending {
    if p == [] then []
    else
      var rest := Selected(p[..|p| - 1], f, wanted);
      if Matches(f, p[|p| - 1].1) == wanted then rest + [p[|p| - 1]] else rest
  }

  function Find(p: Pending, id: string): (r: Option<nat>)
    ensures r.Some? ==> r.value < |p| && p[r.value].0 == id
    ensures r.None? ==> forall i :: 0 <= i < |p| ==> p[i].0 != id
  {
    if p == [] then None
    else match Find(p[..|p| - 1], id)
      case Some(i) => Some(i)
      case None => if p[|p| - 1].0 == id then Some(|p| - 1) else None
  }

  /** What became of a card that was added. */
  datatype Fate = Waiting | Decided | Taken | Expired | Replaced | Lost

  /** The durable approval; a command that was claimed is never claimed again. */
  datatype Status = Requested | Approved | Denied | Claimed | Settled | Abandoned

  datatype Approval = Approval(run: string, session: string, status: Status)

  /** A licence to spawn, with the generation and the run its final check compares. */
  datatype Ticket = Ticket(stamp: nat, run: string)

  /** The spawn gate: free, held by a claim whose ticket is not minted yet, or by an executor past its check. */
  datatype Gate = Open | Minting(id: string, stamp: nat, source: string) | Spawning(id: string)

  /** `fates` follows every card ever added; `allowed` are the approvals somebody allowed; `spawned` is what was
      spawned. */
  datatype State = State(
    pending: Pending, fates: seq<Fate>, generation: nat, log: map<string, Approval>, tickets: map<string, Ticket>,
    gate: Gate, registry: Runs.Registry, allowed: set<string>, spawned: seq<string>)

  function Start(): State {
    State([], [], 0, map[], map[], Open, Runs.Start(), {}, [])
  }

  predicate Holds(p: Pending, serial: nat) {
    exists i :: 0 <= i < |p| && p[i].1.serial == serial
  }

  function Mark(fates: seq<Fate>, p: Pending, fate: Fate): (r: seq<Fate>)
    ensures |r| == |fates|
    ensures forall k :: 0 <= k < |fates| ==> r[k] == if Holds(p, k) then fate else fates[k]
  {
    seq(|fates|, k requires 0 <= k < |fates| => if Holds(p, k) then fate else fates[k])
  }

  predicate Is(s: State, id: string, status: Status) {
    id in s.log && s.log[id].status == status
  }

  function With(log: map<string, Approval>, id: string, status: Status): map<string, Approval>
    requires id in log
  {
    log[id := log[id].(status := status)]
  }

  /** The durable request comes first, and once. */
  function Request(s: State, id: string, run: string, session: string): State {
    if id in s.log then s else s.(log := s.log[id := Approval(run, session, Requested)])
  }

  /** A card is added, by the request or when an unfinished approval is restored. */
  function AddShell(s: State, id: string, run: string, source: string, session: string): State {
    var record := Record(|s.fates|, run, source, session, s.generation);
    match Find(s.pending, id)
    case None => s.(pending := s.pending + [(id, record)], fates := s.fates + [Waiting])
    case Some(i) =>
      s.(pending := s.pending[i := (id, record)], fates := Mark(s.fates, [s.pending[i]], Replaced) + [Waiting])
  }

  function PopShell(s: State, id: string, fate: Fate): State {
    match Find(s.pending, id)
    case None => s
    case Some(i) => s.(pending := Without(s.pending, i), fates := Mark(s.fates, [s.pending[i]], fate))
  }

  /** `accept`, under the gate: the verdict is durable before the card goes. `ok` is everything else that must
      hold: the command can be read back, the saved rule still stands, the service is not closing. */
  function Accept(s: State, id: string, allow: bool, ok: bool): State {
    if s.gate.Open? && ok && Is(s, id, Requested) && !Runs.Flag(s.registry, s.log[id].run)
    then
      PopShell(s.(log := With(s.log, id, if allow then Approved else Denied),
                  allowed := if allow then s.allowed + {id} else s.allowed), id, Decided)
    else s
  }

  /** The claim takes the card if there is one, and otherwise rebuilds it from the log with the current stamp and
      no source run; the durable claim is made before anything else. */
  function Claim(s: State, id: string, ok: bool): State {
    if s.gate.Open? && ok && Is(s, id, Approved) then
      var gate := match Find(s.pending, id)
        case Some(i) => Minting(id, s.pending[i].1.stamp, s.pending[i].1.source)
        case None => Minting(id, s.generation, "");
      s.(log := With(s.log, id, Claimed), gate := gate)
    else s
  }

  /** The rest of the claim: a ticket if the stamp is current and the source's flag is clear. A ticket without a
      source is for the approval's own run. */
  function Mint(s: State): State {
    match s.gate
    case Minting(id, stamp, source) =>
      var t := PopShell(s, id, Taken).(gate := Open);
      if stamp == s.generation && !Runs.Flag(s.registry, source) && id in s.log
      then t.(tickets := s.tickets[id := Ticket(stamp, if source != "" then source else s.log[id].run)]) else t
    case _ => s
  }

  /** The executor may spawn now. */
  predicate Passes(s: State, id: string) {
    && s.gate.Open? && id in s.tickets && s.tickets[id].stamp == s.generation
    && !Runs.Flag(s.registry, s.tickets[id].run)
  }

  /** The final check, under the gate; a ticket is checked once. */
  function CheckSpawn(s: State, id: string): State {
    if !s.gate.Open? || id !in s.tickets then s
    else if Passes(s, id) then s.(tickets := s.tickets - {id}, gate := Spawning(id))
    else s.(tickets := s.tickets - {id})
  }

  /** `Popen`, still under the gate, which is then released; `ok` is whether the process started. */
  function Spawn(s: State, ok: bool): State {
    match s.gate
    case Spawning(id) => s.(gate := Open, spawned := if ok then s.spawned + [id] else s.spawned)
    case _ => s
  }

  predicate Held(s: State, id: string) {
    id in s.tickets || (!s.gate.Open? && s.gate.id == id)
  }

  function Settle(s: State, id: string): State {
    if Is(s, id, Claimed) && !Held(s, id) then s.(log := With(s.log, id, Settled)) else s
  }

  // ------------------------------------------------------------ expiry and Stop

  /** The undecided approvals among the cards an expiry selects: their verdict is recorded first. */
  function Due(s: State, f: Filter): set<string> {
    set x | x in Selected(s.pending, f, true) && Is(s, x.0, Requested) :: x.0
  }

  function Abandon(log: map<string, Approval>, ids: set<string>): map<string, Approval> {
    map id | id in log :: if id in ids then log[id].(status := Abandoned) else log[id]
  }

  function Invalidate(s: State): State {
    s.(generation := s.generation + 1)
  }

  function ExpireCards(s: State, f: Filter): State {
    var stale := Selected(s.pending, f, true);
    s.(pending := Selected(s.pending, f, false), fates := Mark(s.fates, stale, Expired),
       generation := if stale != [] || Unfiltered(f) then s.generation + 1 else s.generation)
  }

  /** Some verdict that is due cannot be recorded. */
  predicate Fails(s: State, f: Filter, missed: set<string>) {
    Due(s, f) * missed != {}
  }

  /** `missed` are the approvals whose verdict cannot be recorded. If one is due, the cards stay and only the
      generation moves. */
  function Expire(s: State, f: Filter, missed: set<string>): State {
    var t := s.(log := Abandon(s.log, Due(s, f) - missed));
    if Fails(s, f, missed) then Invalidate(t) else ExpireCards(t, f)
  }

  /** Allowed and not yet claimed, in a session or in all. */
  function Queued(s: State, session: string): set<string> {
    set id | id in s.log && s.log[id].status == Approved && (session == "" || s.log[id].session == session)
  }

  function CancelQueued(s: State, session: string, missed: set<string>): State {
    s.(log := Abandon(s.log, Queued(s, session) - missed))
  }

  /** An expiry, and the cancellation of what is queued unless the expiry failed. */
  function Sweep(s: State, f: Filter, session: string, missed: set<string>): State {
    var t := Expire(s, f, missed);
    if Fails(s, f, missed) then t else CancelQueued(t, session, missed)
  }

  /** The session a Stop of one run speaks of: the registered run's, or that of the durable task, if any. */
  function SessionOf(s: State, run: string, task: string): string {
    if run in s.registry.active && s.registry.active[run].session != "" then s.registry.active[run].session else task
  }

  function Flagged(s: State, run: string): State {
    s.(registry := Runs.RequestStop(s.registry, run))
  }

  /** `request_stop` of one run, under the gate. */
  function StopRun(s: State, run: string, task: string, closing: bool, missed: set<string>): State {
    if !s.gate.Open? || run == "" then s
    else if SessionOf(s, run, task) == "" then Flagged(s, run)
    else if closing then Invalidate(Flagged(s, run))
    else Sweep(Flagged(s, run), Filter(run, "", ""), SessionOf(s, run, task), missed)
  }

  /** `request_stop` of everything. */
  function StopAll(s: State, closing: bool, missed: set<string>): State {
    if !s.gate.Open? then s
    else if closing then Invalidate(Flagged(s, ""))
    else Sweep(Flagged(s, ""), Filter("", "", ""), "", missed)
  }

  /** The process ends and another starts: only the log is left. Unfinished approvals are restored by adding
      their cards. */
  function Restart(s: State): State {
    s.(pending := [], fates := Mark(s.fates, s.pending, Lost), generation := 0, tickets := map[], gate := Open,
       registry := Runs.Start())
  }

  datatype Step =
    | RequestStep(id: string, run: string, session: string)
    | AddStep(id: string, run: string, source: string, session: string)
    | AcceptStep(id: string, allow: bool, ok: bool)
    | ClaimStep(id: string, ok: bool)
    | MintStep
    | CheckStep(id: string)
    | SpawnStep(ok: bool)
    | SettleStep(id: string)
    | ExpireStep(filter: Filter, missed: set<string>)
    | AbortStep(run: string, session: string, missed: set<string>)
    | StopRunStep(run: string, task: string, closing: bool, missed: set<string>)
    | StopAllStep(closing: bool, missed: set<string>)
    | RegistryStep(step: Runs.Step)
    | RestartStep

  function Next(s: State, step: Step): State {
    match step
    case RequestStep(id, run, session) => Request(s, id, run, session)
    case AddStep(id, run, source, session) => AddShell(s, id, run, source, session)
    case AcceptStep(id, allow, ok) => Accept(s, id, allow, ok)
    case ClaimStep(id, ok) => Claim(s, id, ok)
    case MintStep => Mint(s)
    case CheckStep(id) => CheckSpawn(s, id)
    case SpawnStep(ok) => Spawn(s, ok)
    case SettleStep(id) => Settle(s, id)
    case ExpireStep(f, missed) => Expire(s, f, missed)
    case AbortStep(run, session, missed) => if s.gate.Open? then Sweep(s, Filter(run, "", ""), session, missed) else s
    case StopRunStep(run, task, closing, missed) => StopRun(s, run, task, closing, missed)
    case StopAllStep(closing, missed) => StopAll(s, closing, missed)
    case RegistryStep(step) => s.(registry := Runs.Next(s.registry, step))
    case RestartStep => Restart(s)
  }

  function Run(s: State, steps: seq<Step>): State
    decreases |steps|
  {
    if steps == [] then s else Run(Next(s, steps[0]), steps[1..])
  }

  // ------------------------------------------------------- the dictionary

  ghost predicate UniqueKeys(p: Pending) {
    forall i, j :: 0 <= i < j < |p| ==> p[i].0 != p[j].0 && p[i].1.serial != p[j].1.serial
  }

  /** A filtered expiry removes exactly the matching records and keeps the rest in order. */
  lemma {:induction false} SelectedExactly(p: Pending, f: Filter, wanted: bool)
    ensures forall x :: x in Selected(p, f, wanted) <==> x in p && Matches(f, x.1) == wanted
    ensures UniqueKeys(p) ==> UniqueKeys(Selected(p, f, wanted))
    ensures multiset(Selected(p, f, wanted)) <= multiset(p)
  {
    if p != [] {
      var init := p[..|p| - 1];
      assert p == init + [p[|p| - 1]];
      SelectedExactly(init, f, wanted);
      var rest := Selected(init, f, wanted);
      assert Selected(p, f, wanted) == if Matches(f, p[|p| - 1].1) == wanted then rest + [p[|p| - 1]] else rest;
      forall i | 0 <= i < |rest| && UniqueKeys(p) ensures rest[i].0 != p[|p| - 1].0 && rest[i].1.serial != p[|p| - 1].1.serial {
        assert rest[i] in init;
      }
    }
  }

  /** A selection goes piece by piece, so it keeps the order. */
  lemma {:induction false} SelectedConcat(p: Pending, q: Pending, f: Filter, wanted: bool)
    ensures Selected(p + q, f, wanted) == Selected(p, f, wanted) + Selected(q, f, wanted)
  {
    if q == [] {
      assert p + q == p;
    } else {
      var init := q[..|q| - 1];
      assert (p + q)[..|p + q| - 1] == p + init;
      SelectedConcat(p, init, f, wanted);
    }
  }

  // ------------------------------------------------------------- invariant

  /** Waiting cards are exactly those in memory, none with a stamp ahead of the generation. */
  ghost predicate Cards(p: Pending, fates: seq<Fate>, generation: nat) {
    && UniqueKeys(p)
    && (forall i :: 0 <= i < |p| ==> p[i].1.serial < |fates| && p[i].1.stamp <= generation)
    && (forall k :: 0 <= k < |fates| ==> (fates[k] == Waiting <==> Holds(p, k)))
  }

  ghost predicate Ledger(s: State) {
    Cards(s.pending, s.fates, s.generation)
  }

  /** A ticket, the gate and every spawn belong to one claim of an approval that was allowed, each to its own. */
  ghost predicate Licences(s: State) {
    && (forall id :: id in s.tickets ==> Is(s, id, Claimed) && s.tickets[id].stamp <= s.generation)
    && (!s.gate.Open? ==> Is(s, s.gate.id, Claimed) && s.gate.id !in s.tickets)
    && (s.gate.Minting? ==> s.gate.stamp <= s.generation)
    && (forall id :: id in s.log && s.log[id].status in {Approved, Claimed, Settled} ==> id in s.allowed)
    && (forall i :: 0 <= i < |s.spawned| ==> Spent(s, s.spawned[i]))
    && Distinct(s.spawned)
  }

  /** Claimed for good: the approval has no licence left and gets none. */
  predicate Spent(s: State, id: string) {
    id in s.log && (s.log[id].status == Claimed || s.log[id].status == Settled) && !Held(s, id)
  }

  ghost predicate Inv(s: State) {
    Ledger(s) && Licences(s)
  }

  lemma ExpireKeepsCards(p: Pending, fates: seq<Fate>, generation: nat, f: Filter)
    requires Cards(p, fates, generation)
    ensures Cards(Selected(p, f, false), Mark(fates, Selected(p, f, true), Expired), generation)
  {
    var kept, stale := Selected(p, f, false), Selected(p, f, true);
    SelectedExactly(p, f, true);
    SelectedExactly(p, f, false);
    forall i | 0 <= i < |kept| ensures kept[i] in p {}
    forall k | 0 <= k < |fates| ensures Mark(fates, stale, Expired)[k] == Waiting <==> Holds(kept, k) {
      SplitHolds(p, f, k);
    }
  }

  /** A card is either kept or selected. */
  lemma SplitHolds(p: Pending, f: Filter, k: nat)
    requires UniqueKeys(p)
    ensures Holds(p, k) <==> Holds(Selected(p, f, true), k) || Holds(Selected(p, f, false), k)
    ensures !(Holds(Selected(p, f, true), k) && Holds(Selected(p, f, false), k))
  {
    var kept, stale := Selected(p, f, false), Selected(p, f, true);
    SelectedExactly(p, f, true);
    SelectedExactly(p, f, false);
    if i :| 0 <= i < |p| && p[i].1.serial == k { assert p[i] in stale || p[i] in kept; }
    if i :| 0 <= i < |stale| && stale[i].1.serial == k {
      assert stale[i] in p;
      forall j | 0 <= j < |kept| ensures kept[j].1.serial != k { assert kept[j] in p && stale[i] != kept[j]; }
    }
    if i :| 0 <= i < |kept| && kept[i].1.serial == k { assert kept[i] in p; }
  }

  lemma RemoveAt(p: Pending, i: nat)
    requires i < |p| && UniqueKeys(p)
    ensures UniqueKeys(Without(p, i))
    ensures forall j :: 0 <= j < |Without(p, i)| ==> Without(p, i)[j] in p
    ensures forall k :: Holds(Without(p, i), k) <==> Holds(p, k) && p[i].1.serial != k
  {
    var q := Without(p, i);
    assert forall j :: 0 <= j < |q| ==> q[j] == p[if j < i then j else j + 1];
    forall k ensures Holds(q, k) <==> Holds(p, k) && p[i].1.serial != k { HeldWithout(p, i, k); }
  }

  lemma HeldWithout(p: Pending, i: nat, k: nat)
    requires i < |p| && UniqueKeys(p)
    ensures Holds(Without(p, i), k) <==> Holds(p, k) && p[i].1.serial != k
  {
    var q := Without(p, i);
    if Holds(q, k) {
      var j :| 0 <= j < |q| && q[j].1.serial == k;
      var at := if j < i then j else j + 1;
      assert q[j] == p[at];
    }
    if Holds(p, k) && p[i].1.serial != k {
      var j :| 0 <= j < |p| && p[j].1.serial == k;
      var at := if j < i then j else j - 1;
      assert q[at] == p[j];
    }
  }

  lemma HoldsOne(x: (string, Record), k: nat)
    ensures Holds([x], k) <==> x.1.serial == k
  {
    assert [x][0] == x;
  }

  lemma PopKeepsLedger(s: State, id: string, fate: Fate)
    requires Ledger(s) && fate != Waiting
    ensures Ledger(PopShell(s, id, fate))
  {
    var found := Find(s.pending, id);
    if found.Some? {
      RemoveAt(s.pending, found.value);
      forall k | 0 <= k < |s.fates| ensures Holds([s.pending[found.value]], k) <==> s.pending[found.value].1.serial == k {
        HoldsOne(s.pending[found.value], k);
      }
    }
  }

  lemma AddKeepsLedger(s: State, id: string, run: string, source: string, session: string)
    requires Ledger(s)
    ensures Ledger(AddShell(s, id, run, source, session))
  {
    var t := AddShell(s, id, run, source, session);
    var found := Find(s.pending, id);
    var at := if found.Some? then found.value else |s.pending|;
    assert t.pending[at].1.serial == |s.fates|;
    assert forall j :: 0 <= j < |t.pending| && j != at ==> t.pending[j] == s.pending[j];
    forall k | 0 <= k < |t.fates| ensures t.fates[k] == Waiting <==> Holds(t.pending, k) {
      if found.Some? { HoldsOne(s.pending[at], k); }
      if Holds(s.pending, k) && (found.None? || s.pending[at].1.serial != k) {
        var j :| 0 <= j < |s.pending| && s.pending[j].1.serial == k;
        assert t.pending[j].1.serial == k;
      }
    }
  }

  lemma SweepKeepsLedger(s: State, f: Filter, session: string, missed: set<string>)
    requires Ledger(s)
    ensures Ledger(Expire(s, f, missed)) && Ledger(Sweep(s, f, session, missed))
  {
    ExpireKeepsCards(s.pending, s.fates, s.generation, f);
  }

  lemma RestartKeepsLedger(s: State)
    requires Ledger(s)
    ensures Ledger(Restart(s))
  {
  }

  lemma StopKeepsLedger(s: State, run: string, task: string, closing: bool, missed: set<string>)
    requires Ledger(s)
    ensures Ledger(StopRun(s, run, task, closing, missed)) && Ledger(StopAll(s, closing, missed))
  {
    SweepKeepsLedger(Flagged(s, run), Filter(run, "", ""), SessionOf(s, run, task), missed);
    SweepKeepsLedger(Flagged(s, ""), Filter("", "", ""), "", missed);
  }

  lemma AcceptKeepsLedger(s: State, id: string, allow: bool, ok: bool)
    requires Ledger(s)
    ensures Ledger(Accept(s, id, allow, ok))
  {
    if Accept(s, id, allow, ok) != s {
      PopKeepsLedger(s.(log := With(s.log, id, if allow then Approved else Denied),
                        allowed := if allow then s.allowed + {id} else s.allowed), id, Decided);
    }
  }

  lemma MintKeepsLedger(s: State)
    requires Ledger(s)
    ensures Ledger(Mint(s))
  {
    if s.gate.Minting? { PopKeepsLedger(s, s.gate.id, Taken); }
  }

  lemma NextKeepsLedger(s: State, step: Step)
    requires Ledger(s)
    ensures Ledger(Next(s, step))
  {
    match step {
      case AddStep(id, run, source, session) => AddKeepsLedger(s, id, run, source, session);
      case AcceptStep(id, allow, ok) => AcceptKeepsLedger(s, id, allow, ok);
      case MintStep => MintKeepsLedger(s);
      case ExpireStep(f, missed) => SweepKeepsLedger(s, f, "", missed);
      case AbortStep(run, session, missed) => SweepKeepsLedger(s, Filter(run, "", ""), session, missed);
      case StopRunStep(run, task, closing, missed) => StopKeepsLedger(s, run, task, closing, missed);
      case StopAllStep(closing, missed) => StopKeepsLedger(s, "", "", closing, missed);
      case RestartStep => RestartKeepsLedger(s);
      case _ => QuietKeepsLedger(s, step);
    }
  }

  lemma QuietKeepsLedger(s: State, step: Step)
    requires Ledger(s)
    requires step.RequestStep? || step.ClaimStep? || step.CheckStep? || step.SpawnStep? || step.SettleStep? || step.RegistryStep?
    ensures Ledger(Next(s, step))
  {
  }

  // -------------------------------------------------------------- decisions

  /** How far a durable decision can go. */
  predicate Leads(a: Status, b: Status) {
    match a
    case Requested => true
    case Approved => b != Requested && b != Denied
    case Claimed => b == Claimed || b == Settled
    case _ => b == a
  }

  /** No approval is forgotten or changes hands, and every decision only goes forward. */
  ghost predicate Follows(s: State, t: State) {
    forall id :: id in s.log ==>
      && id in t.log && t.log[id].run == s.log[id].run && t.log[id].session == s.log[id].session
      && Leads(s.log[id].status, t.log[id].status)
  }

  /** Cards, generation, log and registry only; the generation does not go back, and of the decisions only open
      ones change, to abandoned. */
  ghost predicate OnlySweeps(s: State, t: State) {
    && t == s.(pending := t.pending, fates := t.fates, generation := t.generation, log := t.log, registry := t.registry)
    && s.generation <= t.generation && t.log.Keys == s.log.Keys
    && (forall id :: id in s.log ==> t.log[id] == s.log[id] || WasAbandoned(s.log[id], t.log[id]))
  }

  predicate WasAbandoned(a: Approval, b: Approval) {
    (a.status == Requested || a.status == Approved) && b == a.(status := Abandoned)
  }

  lemma ExpireSweeps(s: State, f: Filter, missed: set<string>)
    ensures OnlySweeps(s, Expire(s, f, missed))
  {
  }

  lemma SweepSweeps(s: State, f: Filter, session: string, missed: set<string>)
    ensures OnlySweeps(s, Sweep(s, f, session, missed))
  {
    ExpireSweeps(s, f, missed);
  }

  lemma PopLeavesLog(s: State, id: string, fate: Fate)
    ensures var t := PopShell(s, id, fate);
            t == s.(pending := t.pending, fates := t.fates)
  {
  }

  /** What `accept` does besides removing the card. */
  lemma AcceptDoes(s: State, id: string, allow: bool, ok: bool)
    ensures var t := Accept(s, id, allow, ok);
            t == s || (s.gate.Open? && Is(s, id, Requested)
                       && t == s.(log := With(s.log, id, if allow then Approved else Denied), pending := t.pending, fates := t.fates,
                                  allowed := if allow then s.allowed + {id} else s.allowed))
  {
    if Accept(s, id, allow, ok) != s {
      PopLeavesLog(s.(log := With(s.log, id, if allow then Approved else Denied),
                      allowed := if allow then s.allowed + {id} else s.allowed), id, Decided);
    }
  }

  lemma MintDoes(s: State)
    ensures var t := Mint(s);
            t == s || (s.gate.Minting? && t == s.(pending := t.pending, fates := t.fates, gate := Open, tickets := t.tickets)
                       && (t.tickets == s.tickets
                           || (s.gate.stamp == s.generation && s.gate.id in s.log && !Runs.Flag(s.registry, s.gate.source)
                               && t.tickets == s.tickets[s.gate.id := Ticket(s.gate.stamp, if s.gate.source != "" then s.gate.source else s.log[s.gate.id].run)])))
  {
    if s.gate.Minting? { PopLeavesLog(s, s.gate.id, Taken); }
  }

  /** The steps that abandon approvals. */
  predicate Sweeps(step: Step) {
    step.ExpireStep? || step.AbortStep? || step.StopRunStep? || step.StopAllStep?
  }

  lemma FlagThenSweep(s: State, run: string, t: State)
    requires OnlySweeps(Flagged(s, run), t)
    ensures OnlySweeps(s, t)
  {
  }

  lemma StopRunSweeps(s: State, run: string, task: string, closing: bool, missed: set<string>)
    ensures OnlySweeps(s, StopRun(s, run, task, closing, missed))
  {
    var t := StopRun(s, run, task, closing, missed);
    SweepSweeps(Flagged(s, run), Filter(run, "", ""), SessionOf(s, run, task), missed);
    if t != s { FlagThenSweep(s, run, t); }
  }

  lemma StopAllSweeps(s: State, closing: bool, missed: set<string>)
    ensures OnlySweeps(s, StopAll(s, closing, missed))
  {
    var t := StopAll(s, closing, missed);
    SweepSweeps(Flagged(s, ""), Filter("", "", ""), "", missed);
    if t != s { FlagThenSweep(s, "", t); }
  }

  lemma SweepsFollow(s: State, t: State)
    requires OnlySweeps(s, t)
    ensures Follows(s, t)
  {
  }

  lemma SweepStepDoes(s: State, step: Step)
    requires Sweeps(step)
    ensures OnlySweeps(s, Next(s, step))
  {
    match step {
      case ExpireStep(f, missed) => ExpireSweeps(s, f, missed);
      case AbortStep(run, session, missed) => SweepSweeps(s, Filter(run, "", ""), session, missed);
      case StopRunStep(run, task, closing, missed) => StopRunSweeps(s, run, task, closing, missed);
      case StopAllStep(closing, missed) => StopAllSweeps(s, closing, missed);
    }
  }

  /** The steps of one approval towards its spawn. */
  lemma DecidingFollows(s: State, id: string, allow: bool, ok: bool)
    ensures Follows(s, Accept(s, id, allow, ok)) && Follows(s, Mint(s))
  {
    AcceptDoes(s, id, allow, ok);
    MintDoes(s);
  }

  lemma ClaimingFollows(s: State, id: string, ok: bool)
    ensures Follows(s, Claim(s, id, ok)) && Follows(s, Settle(s, id))
  {
  }

  /** The steps that leave the log alone, but for a request, which only adds to it. */
  predicate LeavesLog(step: Step) {
    step.RequestStep? || step.AddStep? || step.CheckStep? || step.SpawnStep? || step.RegistryStep? || step.RestartStep?
  }

  lemma QuietFollows(s: State, step: Step)
    requires LeavesLog(step)
    ensures Follows(s, Next(s, step))
  {
  }

  lemma NextFollows(s: State, step: Step)
    ensures Follows(s, Next(s, step))
  {
    if Sweeps(step) {
      SweepStepDoes(s, step);
      SweepsFollow(s, Next(s, step));
    } else if LeavesLog(step) {
      QuietFollows(s, step);
    } else {
      match step {
        case AcceptStep(id, allow, ok) => DecidingFollows(s, id, allow, ok);
        case ClaimStep(id, ok) => ClaimingFollows(s, id, ok);
        case SettleStep(id) => ClaimingFollows(s, id, true);
        case MintStep => DecidingFollows(s, "", true, true);
      }
    }
  }

  // ----------------------------------------------------- what each step does

  /** The card of an approval, and no other, left memory with this fate. */
  ghost predicate CardLeaves(s: State, t: State, id: string, fate: Fate) {
    && |t.fates| == |s.fates| && (forall x :: x in t.pending <==> x in s.pending && x.0 != id)
    && (forall x :: x in s.pending ==>
          x.1.serial < |s.fates| && t.fates[x.1.serial] == if x.0 == id then fate else s.fates[x.1.serial])
  }

  lemma OneCardOfEach(p: Pending, i: nat)
    requires i < |p| && UniqueKeys(p)
    ensures forall x :: x in Without(p, i) <==> x in p && x.0 != p[i].0
    ensures forall x :: x in p ==> (Holds([p[i]], x.1.serial) <==> x.0 == p[i].0)
  {
    var q := Without(p, i);
    assert forall j :: 0 <= j < |q| ==> q[j] == p[if j < i then j else j + 1];
    forall x | x in p ensures x in q <==> x.0 != p[i].0 {
      var j :| 0 <= j < |p| && p[j] == x;
      if j != i { assert q[if j < i then j else j - 1] == x; }
    }
    forall x | x in p ensures Holds([p[i]], x.1.serial) <==> x.0 == p[i].0 {
      HoldsOne(p[i], x.1.serial);
    }
  }

  lemma PopTakesCard(s: State, id: string, fate: Fate)
    requires Ledger(s)
    ensures CardLeaves(s, PopShell(s, id, fate), id, fate)
  {
    var found := Find(s.pending, id);
    if found.Some? { OneCardOfEach(s.pending, found.value); }
  }

  /** A verdict, either one, takes effect exactly when the gate is free, nothing else stands against it, the
      approval is undecided and its run is not stopped: it is durable, and the card is gone. Otherwise nothing
      happens. */
  lemma AcceptDecides(s: State, id: string, allow: bool, ok: bool)
    requires Ledger(s)
    ensures var t := Accept(s, id, allow, ok);
            if s.gate.Open? && ok && Is(s, id, Requested) && !Runs.Flag(s.registry, s.log[id].run) then
              && t.log == s.log[id := Approval(s.log[id].run, s.log[id].session, if allow then Approved else Denied)]
              && t.allowed == (if allow then s.allowed + {id} else s.allowed)
              && CardLeaves(s, t, id, Decided)
              && t == s.(log := t.log, allowed := t.allowed, pending := t.pending, fates := t.fates)
            else t == s
  {
    if Accept(s, id, allow, ok) != s {
      var u := s.(log := With(s.log, id, if allow then Approved else Denied), allowed := if allow then s.allowed + {id} else s.allowed);
      PopTakesCard(u, id, Decided);
      PopLeavesLog(u, id, Decided);
    }
  }

  /** A card is added with the current generation, in the place of an older one of its approval. */
  lemma AddPutsCard(s: State, id: string, run: string, source: string, session: string)
    requires Ledger(s)
    ensures var t := AddShell(s, id, run, source, session);
            var card := (id, Record(|s.fates|, run, source, session, s.generation));
            && t == s.(pending := t.pending, fates := t.fates)
            && |t.fates| == |s.fates| + 1 && t.fates[|s.fates|] == Waiting
            && (forall x :: x in t.pending <==> x == card || (x in s.pending && x.0 != id))
            && (forall x :: x in s.pending ==> t.fates[x.1.serial] == if x.0 == id then Replaced else s.fates[x.1.serial])
  {
    var t := AddShell(s, id, run, source, session);
    var found := Find(s.pending, id);
    var at := if found.Some? then found.value else |s.pending|;
    assert forall j :: 0 <= j < |s.pending| && j != at ==> t.pending[j] == s.pending[j];
    assert t.pending[at] == (id, Record(|s.fates|, run, source, session, s.generation));
    if found.Some? { OneCardOfEach(s.pending, at); }
  }

  /** A claim is durable exactly for an allowed approval with nothing against it; it then holds the gate. */
  lemma ClaimIff(s: State, id: string, ok: bool)
    ensures var t := Claim(s, id, ok);
            if s.gate.Open? && ok && Is(s, id, Approved)
            then t == s.(log := s.log[id := Approval(s.log[id].run, s.log[id].session, Claimed)], gate := t.gate)
                 && t.gate.Minting? && t.gate.id == id
            else t == s
  {
  }

  /** The claim's second half gives the gate back and takes the card, whether or not it mints. */
  lemma MintTakesCard(s: State)
    requires Ledger(s) && s.gate.Minting?
    ensures Mint(s).gate.Open? && CardLeaves(s, Mint(s), s.gate.id, Taken)
  {
    PopTakesCard(s, s.gate.id, Taken);
  }

  /** A check uses the ticket up, and holds the gate for the spawn exactly if it passes. */
  lemma CheckUsesTicket(s: State, id: string)
    ensures var t := CheckSpawn(s, id);
            if s.gate.Open? && id in s.tickets
            then t == s.(tickets := s.tickets - {id}, gate := t.gate) && t.gate == if Passes(s, id) then Spawning(id) else Open
            else t == s
  {
  }

  /** A claimed approval is settled once nothing can come of it any more. */
  lemma SettleIff(s: State, id: string)
    ensures var t := Settle(s, id);
            if Is(s, id, Claimed) && id !in s.tickets && (s.gate.Open? || s.gate.id != id)
            then t == s.(log := s.log[id := Approval(s.log[id].run, s.log[id].session, Settled)])
            else t == s
  {
  }

  lemma FailsIff(s: State, f: Filter, missed: set<string>)
    ensures Fails(s, f, missed) <==> exists id :: id in missed && Is(s, id, Requested) && CardFor(s, id, f)
  {
    forall id ensures id in Due(s, f) <==> Is(s, id, Requested) && CardFor(s, id, f) { DueIff(s, f, id); }
    if Fails(s, f, missed) {
      var id :| id in Due(s, f) * missed;
      assert id in missed && Is(s, id, Requested) && CardFor(s, id, f);
    }
    if id :| id in missed && Is(s, id, Requested) && CardFor(s, id, f) { assert id in Due(s, f) * missed; }
  }

  /** An expiry takes exactly the selected cards, and none when a due verdict cannot be recorded. */
  lemma ExpireTakesCards(s: State, f: Filter, missed: set<string>)
    requires Ledger(s)
    ensures var t := Expire(s, f, missed);
            if Fails(s, f, missed) then t.pending == s.pending && t.fates == s.fates && t.generation == s.generation + 1
            else && |t.fates| == |s.fates|
                 && (forall x :: x in t.pending <==> x in s.pending && !Matches(f, x.1))
                 && (forall x :: x in s.pending ==>
                       t.fates[x.1.serial] == if Matches(f, x.1) then Expired else s.fates[x.1.serial])
    ensures forall r :: Matches(f, r) <==>
              (f.run == "" || f.run == r.run) && (f.exclude == "" || f.exclude != r.run) && (f.session == "" || f.session == r.session)
  {
    SelectedExactly(s.pending, f, true);
    SelectedExactly(s.pending, f, false);
    var stale := Selected(s.pending, f, true);
    forall x | x in s.pending ensures Holds(stale, x.1.serial) <==> Matches(f, x.1) {
      if Matches(f, x.1) {
        assert x in stale;
        var i :| 0 <= i < |stale| && stale[i] == x;
      }
    }
  }

  /** A Stop waits for the gate. It then raises the flag it is about, whatever becomes of the cards; while closing it
      moves the generation and leaves every decision as it is. */
  lemma StopFlags(s: State, run: string, task: string, closing: bool, missed: set<string>)
    ensures !s.gate.Open? ==> StopRun(s, run, task, closing, missed) == s && StopAll(s, closing, missed) == s
    ensures s.gate.Open? ==>
            var one, all := StopRun(s, run, task, closing, missed), StopAll(s, closing, missed);
            && (run != "" ==> one.registry == Runs.RequestStop(s.registry, run))
            && all.registry == Runs.RequestStop(s.registry, "")
            && (closing ==> all.log == s.log && all.pending == s.pending && all.generation == s.generation + 1)
            && (closing && run != "" ==> one.log == s.log && one.pending == s.pending)
            && (run == "" ==> one == s)
  {
  }

  /** After a restart only the decisions are left; what was claimed by then is never run, and what was not still
      can be. */
  lemma RestartKeepsOnlyLog(s: State, id: string)
    requires Inv(s) && id in s.log
    ensures var t := Restart(s);
            && t.log == s.log && t.pending == [] && t.tickets == map[] && t.gate.Open? && t.generation == 0
            && t.registry == Runs.Start() && t.spawned == s.spawned && |t.fates| == |s.fates|
            && (forall k :: 0 <= k < |s.fates| ==> t.fates[k] == if s.fates[k] == Waiting then Lost else s.fates[k])
            && (Final(t, id) <==> s.log[id].status != Requested && s.log[id].status != Approved)
  {
    NextKeepsInv(s, RestartStep);
    NeverPassesIff(Next(s, RestartStep), id);
  }

  /** A denied command is not run in any future. */
  lemma DeniedForGood(s: State, id: string)
    requires Inv(s) && s.gate.Open? && Is(s, id, Requested) && !Runs.Flag(s.registry, s.log[id].run)
    ensures var t := Accept(s, id, false, true);
            Is(t, id, Denied) && Final(t, id) && forall x :: x in t.pending ==> x.0 != id
  {
    AcceptDecides(s, id, false, true);
    NextKeepsInv(s, AcceptStep(id, false, true));
    NeverPassesIff(Accept(s, id, false, true), id);
  }

  // ------------------------------------------------------ decisions over runs

  /** A decision is final over every run, restarts included: what was denied, abandoned or settled stays so, and
      what was claimed is never claimed again. */
  lemma {:induction false} DecisionIsFinal(s: State, steps: seq<Step>)
    ensures Follows(s, Run(s, steps))
    decreases |steps|
  {
    if steps != [] {
      NextFollows(s, steps[0]);
      DecisionIsFinal(Next(s, steps[0]), steps[1..]);
    }
  }

  // -------------------------------------------------------------- licences

  lemma SweepKeepsLicences(s: State, step: Step)
    requires Licences(s) && Sweeps(step)
    ensures Licences(Next(s, step))
  {
    SweepStepDoes(s, step);
    var t := Next(s, step);
    forall i | 0 <= i < |t.spawned| ensures Spent(t, t.spawned[i]) { assert Spent(s, s.spawned[i]); }
  }

  lemma AcceptKeepsLicences(s: State, id: string, allow: bool, ok: bool)
    requires Licences(s)
    ensures Licences(Accept(s, id, allow, ok))
  {
    AcceptDoes(s, id, allow, ok);
    var t := Accept(s, id, allow, ok);
    forall i | 0 <= i < |t.spawned| ensures Spent(t, t.spawned[i]) { assert Spent(s, s.spawned[i]); }
  }

  lemma ClaimKeepsLicences(s: State, id: string, ok: bool)
    requires Ledger(s) && Licences(s)
    ensures Licences(Claim(s, id, ok))
  {
    var t := Claim(s, id, ok);
    forall i | 0 <= i < |t.spawned| ensures Spent(t, t.spawned[i]) { assert Spent(s, s.spawned[i]); }
  }

  lemma MintKeepsLicences(s: State)
    requires Licences(s)
    ensures Licences(Mint(s))
  {
    MintDoes(s);
    var t := Mint(s);
    forall i | 0 <= i < |t.spawned| ensures Spent(t, t.spawned[i]) { assert Spent(s, s.spawned[i]); }
  }

  lemma SpawnKeepsLicences(s: State, ok: bool)
    requires Licences(s)
    ensures Licences(Spawn(s, ok))
  {
    var t := Spawn(s, ok);
    forall i | 0 <= i < |t.spawned| ensures Spent(t, t.spawned[i]) {
      if i < |s.spawned| { assert Spent(s, s.spawned[i]); }
    }
  }

  lemma OtherKeepsLicences(s: State, step: Step)
    requires Licences(s)
    requires step.RequestStep? || step.AddStep? || step.CheckStep? || step.SettleStep? || step.RegistryStep? || step.RestartStep?
    ensures Licences(Next(s, step))
  {
    var t := Next(s, step);
    assert t.spawned == s.spawned && t.allowed == s.allowed;
    forall i | 0 <= i < |t.spawned| ensures Spent(t, t.spawned[i]) { SpentStays(s, step, s.spawned[i]); }
  }

  lemma SpentStays(s: State, step: Step, id: string)
    requires Spent(s, id) && (step.RequestStep? || step.AddStep? || step.CheckStep? || step.SettleStep? || step.RegistryStep? || step.RestartStep?)
    ensures Spent(Next(s, step), id)
  {
  }

  lemma NextKeepsInv(s: State, step: Step)
    requires Inv(s)
    ensures Inv(Next(s, step))
  {
    NextKeepsLedger(s, step);
    if Sweeps(step) {
      SweepKeepsLicences(s, step);
    } else {
      match step {
        case AcceptStep(id, allow, ok) => AcceptKeepsLicences(s, id, allow, ok);
        case ClaimStep(id, ok) => ClaimKeepsLicences(s, id, ok);
        case MintStep => MintKeepsLicences(s);
        case SpawnStep(ok) => SpawnKeepsLicences(s, ok);
        case _ => OtherKeepsLicences(s, step);
      }
    }
  }

  lemma {:induction false} RunKeepsInv(s: State, steps: seq<Step>)
    requires Inv(s)
    ensures Inv(Run(s, steps))
    decreases |steps|
  {
    if steps != [] {
      NextKeepsInv(s, steps[0]);
      RunKeepsInv(Next(s, steps[0]), steps[1..]);
    }
  }

  lemma NextNeverGoesBack(s: State, step: Step)
    requires step != RestartStep
    ensures s.generation <= Next(s, step).generation
  {
    if Sweeps(step) {
      SweepStepDoes(s, step);
    } else {
      match step {
        case AcceptStep(id, allow, ok) => AcceptDoes(s, id, allow, ok);
        case MintStep => MintDoes(s);
        case _ =>
      }
    }
  }

  /** While the process lives the generation does not go back. */
  lemma {:induction false} GenerationNeverGoesBack(s: State, steps: seq<Step>)
    requires forall i :: 0 <= i < |steps| ==> steps[i] != RestartStep
    ensures s.generation <= Run(s, steps).generation
    decreases |steps|
  {
    if steps != [] {
      assert steps[0] != RestartStep;
      NextNeverGoesBack(s, steps[0]);
      GenerationNeverGoesBack(Next(s, steps[0]), steps[1..]);
    }
  }

  /** In every run, restarts included: an approval is spawned at most once, and only if somebody allowed it. */
  lemma SpawnedOnceIfAllowed(steps: seq<Step>)
    ensures var s := Run(Start(), steps);
            Distinct(s.spawned) && forall i :: 0 <= i < |s.spawned| ==> s.spawned[i] in s.allowed
  {
    RunKeepsInv(Start(), steps);
    var s := Run(Start(), steps);
    forall i | 0 <= i < |s.spawned| ensures s.spawned[i] in s.allowed { assert Spent(s, s.spawned[i]); }
  }

  lemma FateStepIsFinal(s: State, step: Step, k: nat)
    requires Ledger(s) && k < |s.fates| && s.fates[k] != Waiting
    ensures k < |Next(s, step).fates| && Next(s, step).fates[k] == s.fates[k]
  {
    assert !Holds(s.pending, k);
    match step {
      case AddStep(id, _, _, _) => NotHeldAt(s, id, k);
      case AcceptStep(id, _, _) => NotHeldAt(s, id, k);
      case MintStep => if s.gate.Minting? { NotHeldAt(s, s.gate.id, k); }
      case ExpireStep(f, _) => SplitHolds(s.pending, f, k);
      case AbortStep(run, _, _) => SplitHolds(s.pending, Filter(run, "", ""), k);
      case StopRunStep(run, _, _, _) => SplitHolds(s.pending, Filter(run, "", ""), k);
      case StopAllStep(_, _) => SplitHolds(s.pending, Filter("", "", ""), k);
      case _ =>
    }
  }

  lemma NotHeldAt(s: State, id: string, k: nat)
    requires !Holds(s.pending, k)
    ensures Find(s.pending, id).Some? ==> !Holds([s.pending[Find(s.pending, id).value]], k)
  {
    var found := Find(s.pending, id);
    if found.Some? { HoldsOne(s.pending[found.value], k); }
  }

  /** A card leaves memory at most once: decided, taken by a claim, expired, replaced or lost, never two of them. */
  lemma {:induction false} FateIsFinal(s: State, steps: seq<Step>, k: nat)
    requires Ledger(s) && k < |s.fates| && s.fates[k] != Waiting
    ensures k < |Run(s, steps).fates| && Run(s, steps).fates[k] == s.fates[k]
    decreases |steps|
  {
    if steps != [] {
      FateStepIsFinal(s, steps[0], k);
      NextKeepsLedger(s, steps[0]);
      FateIsFinal(Next(s, steps[0]), steps[1..], k);
    }
  }

  // --------------------------------------------------- what can still be spawned

  /** A licence that the final check could still honour. */
  predicate Live(s: State, id: string) {
    || (id in s.tickets && s.tickets[id].stamp == s.generation)
    || (s.gate.Minting? && s.gate.id == id && s.gate.stamp == s.generation)
  }

  /** No licence is live and none can come. */
  predicate Over(s: State, id: string)
    requires id in s.log
  {
    match s.log[id].status
    case Requested => false
    case Approved => false
    case Claimed => !Live(s, id)
    case _ => true
  }

  ghost predicate PassesAfter(s: State, steps: seq<Step>, id: string) {
    Passes(Run(s, steps), id)
  }

  /** In no future does the approval pass the executor's check. */
  ghost predicate Final(s: State, id: string) {
    forall steps: seq<Step> :: !PassesAfter(s, steps, id)
  }

  /** A claimed approval gets no licence it did not have. */
  lemma LiveIsOld(s: State, step: Step, id: string)
    requires Inv(s) && Is(s, id, Claimed) && !Live(s, id)
    ensures !Live(Next(s, step), id)
  {
    if Sweeps(step) {
      SweepStepDoes(s, step);
    } else {
      match step {
        case AcceptStep(x, allow, ok) => AcceptDoes(s, x, allow, ok);
        case MintStep => MintDoes(s);
        case _ =>
      }
    }
  }

  lemma OverStep(s: State, step: Step, id: string)
    requires Inv(s) && id in s.log && Over(s, id)
    ensures id in Next(s, step).log && Over(Next(s, step), id)
  {
    NextFollows(s, step);
    if s.log[id].status == Claimed { LiveIsOld(s, step, id); }
  }

  lemma {:induction false} OverStays(s: State, steps: seq<Step>, id: string)
    requires Inv(s) && id in s.log && Over(s, id)
    ensures !PassesAfter(s, steps, id)
    decreases |steps|
  {
    if steps != [] {
      OverStep(s, steps[0], id);
      NextKeepsInv(s, steps[0]);
      OverStays(Next(s, steps[0]), steps[1..], id);
    }
  }

  lemma RunCons(s: State, step: Step, rest: seq<Step>)
    ensures Run(s, [step] + rest) == Run(Next(s, step), rest)
  {
    assert ([step] + rest)[1..] == rest;
  }

  lemma RunOne(s: State, step: Step)
    ensures Run(s, [step]) == Next(s, step)
  {
    assert [step] == [step] + [];
    RunCons(s, step, []);
  }

  lemma {:induction false} RunConcat(s: State, a: seq<Step>, b: seq<Step>)
    ensures Run(s, a + b) == Run(Run(s, a), b)
    decreases |a|
  {
    if a == [] {
      assert a + b == b;
    } else {
      assert a + b == [a[0]] + (a[1..] + b);
      RunCons(s, a[0], a[1..] + b);
      RunConcat(Next(s, a[0]), a[1..], b);
    }
  }

  /** The steps that clear the flag an id is answered with: its run ends, and another input is resumed. */
  lemma FlagCanBeCleared(s: State, run: string) returns (t: State, steps: seq<Step>)
    ensures t == Run(s, steps) && t == s.(registry := t.registry) && !Runs.Flag(t.registry, run)
  {
    var a := RegistryStep(Runs.ReleaseStep(run));
    var u := Next(s, a);
    var other := FreshString(u.registry.active.Keys);
    var b := RegistryStep(Runs.ClearStep(other));
    t, steps := Next(u, b), [a] + [b];
    RunCons(s, a, [b]);
    RunOne(u, b);
  }

  /** Whoever holds the gate gives it back; nothing else of an approval that is not its own changes. */
  lemma GateCanBeFreed(s: State) returns (t: State, step: Step)
    ensures step == MintStep || step == SpawnStep(true)
    ensures t == Next(s, step) && t.gate.Open? && t.generation == s.generation && t.log == s.log && t.registry == s.registry
    ensures forall id :: id in s.tickets && (s.gate.Minting? ==> s.gate.id != id) ==> id in t.tickets && t.tickets[id] == s.tickets[id]
  {
    step := if s.gate.Minting? then MintStep else SpawnStep(true);
    t := Next(s, step);
    MintDoes(s);
  }

  lemma TicketCanPass(s: State, id: string) returns (steps: seq<Step>)
    requires Inv(s) && id in s.tickets && s.tickets[id].stamp == s.generation
    ensures PassesAfter(s, steps, id)
  {
    var free, first := GateCanBeFreed(s);
    var clear, rest := FlagCanBeCleared(free, s.tickets[id].run);
    steps := [first] + rest;
    RunCons(s, first, rest);
  }

  lemma ClaimCanPass(s: State, id: string) returns (steps: seq<Step>)
    requires Inv(s) && s.gate.Minting? && s.gate.id == id && s.gate.stamp == s.generation
    ensures PassesAfter(s, steps, id)
  {
    var clear, first := FlagCanBeCleared(s, s.gate.source);
    var minted := Next(clear, MintStep);
    MintDoes(clear);
    assert id in minted.tickets && minted.tickets[id].stamp == minted.generation;
    RunKeepsInv(s, first);
    NextKeepsInv(clear, MintStep);
    var rest := TicketCanPass(minted, id);
    steps := first + ([MintStep] + rest);
    RunConcat(s, first, [MintStep] + rest);
    RunCons(clear, MintStep, rest);
  }

  lemma ApprovedCanPass(s: State, id: string) returns (steps: seq<Step>)
    requires Inv(s) && Is(s, id, Approved)
    ensures PassesAfter(s, steps, id)
  {
    var a := ExpireStep(Filter("", "", ""), {});
    var bare := Next(s, a);
    ExpiryBares(s, id);
    NextKeepsInv(s, a);
    var free, b := GateCanBeFreed(bare);
    FreedStaysBare(bare, b);
    NextKeepsInv(bare, b);
    var rest := BareCanPass(free, id);
    steps := [a] + ([b] + rest);
    RunCons(s, a, [b] + rest);
    RunCons(bare, b, rest);
  }

  lemma ExpiryBares(s: State, id: string)
    requires Is(s, id, Approved)
    ensures var t := Expire(s, Filter("", "", ""), {});
            t.pending == [] && Is(t, id, Approved)
  {
    NothingKept(s.pending, Filter("", "", ""));
    assert Due(s, Filter("", "", "")) * {} == {};
  }

  /** With no card in memory the claim is stamped with the generation it finds. */
  lemma BareCanPass(s: State, id: string) returns (steps: seq<Step>)
    requires Inv(s) && s.gate.Open? && s.pending == [] && Is(s, id, Approved)
    ensures PassesAfter(s, steps, id)
  {
    var a := ClaimStep(id, true);
    var claimed := Next(s, a);
    assert claimed.gate == Minting(id, s.generation, "");
    NextKeepsInv(s, a);
    var rest := ClaimCanPass(claimed, id);
    steps := [a] + rest;
    RunCons(s, a, rest);
  }

  lemma FreedStaysBare(s: State, step: Step)
    requires s.pending == [] && (step == MintStep || step.SpawnStep?)
    ensures Next(s, step).pending == []
  {
  }

  lemma RequestedCanPass(s: State, id: string) returns (steps: seq<Step>)
    requires Inv(s) && Is(s, id, Requested)
    ensures PassesAfter(s, steps, id)
  {
    var free, a := GateCanBeFreed(s);
    var clear, b := FlagCanBeCleared(free, s.log[id].run);
    var c := AcceptStep(id, true, true);
    var allowed := Next(clear, c);
    AcceptDoes(clear, id, true, true);
    AcceptAllows(clear, id);
    NextKeepsInv(s, a);
    RunKeepsInv(free, b);
    NextKeepsInv(clear, c);
    var rest := ApprovedCanPass(allowed, id);
    steps := [a] + (b + ([c] + rest));
    RunCons(s, a, b + ([c] + rest));
    RunConcat(free, b, [c] + rest);
    RunCons(clear, c, rest);
  }

  lemma AcceptAllows(s: State, id: string)
    requires s.gate.Open? && Is(s, id, Requested) && !Runs.Flag(s.registry, s.log[id].run)
    ensures Is(Accept(s, id, true, true), id, Approved)
  {
    PopLeavesLog(s.(log := With(s.log, id, Approved), allowed := s.allowed + {id}), id, Decided);
  }

  /** Whether a command can never be spawned again, in any future: exactly when its decision is closed, or it was
      claimed and its licence is not live. An open decision always can, whatever its card's stamp says, and no
      stop flag decides it, since every flag can be cleared. */
  lemma NeverPassesIff(s: State, id: string)
    requires Inv(s) && id in s.log
    ensures Final(s, id) <==> Over(s, id)
  {
    if Over(s, id) {
      forall steps: seq<Step> ensures !PassesAfter(s, steps, id) { OverStays(s, steps, id); }
    } else {
      var steps := CanPass(s, id);
      assert PassesAfter(s, steps, id);
    }
  }

  lemma CanPass(s: State, id: string) returns (steps: seq<Step>)
    requires Inv(s) && id in s.log && !Over(s, id)
    ensures PassesAfter(s, steps, id)
  {
    if s.log[id].status == Requested {
      steps := RequestedCanPass(s, id);
    } else if s.log[id].status == Approved {
      steps := ApprovedCanPass(s, id);
    } else if id in s.tickets && s.tickets[id].stamp == s.generation {
      steps := TicketCanPass(s, id);
    } else {
      steps := ClaimCanPass(s, id);
    }
  }

  // ------------------------------------------------------------- what is spawned

  ghost predicate SpawnedAfter(s: State, steps: seq<Step>, id: string) {
    id in Run(s, steps).spawned
  }

  /** A spawn adds what passed the check, and only a check that passes leads to one. */
  lemma SpawnStepIff(s: State, step: Step, id: string)
    ensures id in Next(s, step).spawned <==> id in s.spawned || (step == SpawnStep(true) && s.gate == Spawning(id))
    ensures Next(s, step).gate == Spawning(id) <==>
            (s.gate == Spawning(id) && !step.SpawnStep? && !step.RestartStep?) || (step == CheckStep(id) && Passes(s, id))
  {
    if Sweeps(step) {
      SweepStepDoes(s, step);
    } else {
      match step {
        case AcceptStep(x, allow, ok) => AcceptDoes(s, x, allow, ok);
        case MintStep => MintDoes(s);
        case _ =>
      }
    }
  }

  lemma {:induction false} SpawnNeedsCheck(s: State, steps: seq<Step>, id: string)
    requires Final(s, id) && id !in s.spawned && s.gate != Spawning(id)
    ensures !SpawnedAfter(s, steps, id)
    decreases |steps|
  {
    if steps != [] {
      assert !PassesAfter(s, [], id);
      var t := Next(s, steps[0]);
      SpawnStepIff(s, steps[0], id);
      forall rest: seq<Step> ensures !PassesAfter(t, rest, id) {
        RunCons(s, steps[0], rest);
        assert !PassesAfter(s, [steps[0]] + rest, id);
      }
      SpawnNeedsCheck(t, steps[1..], id);
    }
  }

  /** The process of a command can be started in some future, exactly when it already holds the gate for that or
      its decision leaves the check open. */
  lemma CanBeSpawnedIff(s: State, id: string)
    requires Inv(s) && id in s.log && id !in s.spawned
    ensures (exists steps: seq<Step> :: SpawnedAfter(s, steps, id)) <==> s.gate == Spawning(id) || !Over(s, id)
  {
    if s.gate == Spawning(id) {
      RunOne(s, SpawnStep(true));
      SpawnStepIff(s, SpawnStep(true), id);
      assert SpawnedAfter(s, [SpawnStep(true)], id);
    } else if Over(s, id) {
      NeverPassesIff(s, id);
      forall steps: seq<Step> ensures !SpawnedAfter(s, steps, id) { SpawnNeedsCheck(s, steps, id); }
    } else {
      var steps := CanPass(s, id);
      var t := Run(s, steps);
      var checked := Next(t, CheckStep(id));
      SpawnStepIff(t, CheckStep(id), id);
      SpawnStepIff(checked, SpawnStep(true), id);
      RunCons(t, CheckStep(id), [SpawnStep(true)]);
      RunOne(checked, SpawnStep(true));
      RunConcat(s, steps, [CheckStep(id)] + [SpawnStep(true)]);
      assert SpawnedAfter(s, steps + ([CheckStep(id)] + [SpawnStep(true)]), id);
    }
  }

  // ------------------------------------------------------------ when a Stop is final

  /** The approval has a card in memory that the filter selects. */
  predicate CardFor(s: State, id: string, f: Filter) {
    exists i :: 0 <= i < |s.pending| && s.pending[i].0 == id && Matches(f, s.pending[i].1)
  }

  lemma DueIff(s: State, f: Filter, id: string)
    ensures id in Due(s, f) <==> Is(s, id, Requested) && CardFor(s, id, f)
  {
    SelectedExactly(s.pending, f, true);
    if i :| 0 <= i < |s.pending| && s.pending[i].0 == id && Matches(f, s.pending[i].1) {
      assert s.pending[i] in Selected(s.pending, f, true);
    }
  }

  /** What a sweep does to one decision. */
  lemma SweepDecides(s: State, f: Filter, session: string, missed: set<string>, id: string)
    requires id in s.log
    ensures var t := Sweep(s, f, session, missed);
            && id in t.log
            && (Is(t, id, Abandoned) <==>
                  match s.log[id].status
                  case Requested => CardFor(s, id, f) && id !in missed
                  case Approved => !Fails(s, f, missed) && id !in missed && (session == "" || s.log[id].session == session)
                  case Abandoned => true
                  case _ => false)
            && (!Is(t, id, Abandoned) ==> t.log[id] == s.log[id])
  {
    DueIff(s, f, id);
    var u := Expire(s, f, missed);
    assert u.log[id] == if id in Due(s, f) - missed then s.log[id].(status := Abandoned) else s.log[id];
  }

  lemma SweepMoves(s: State, f: Filter, session: string, missed: set<string>)
    ensures Sweep(s, f, session, missed).generation ==
            if Selected(s.pending, f, true) != [] || Unfiltered(f) then s.generation + 1 else s.generation
  {
    if Fails(s, f, missed) {
      var id :| id in Due(s, f) * missed;
      assert Selected(s.pending, f, true) != [];
    }
  }

  /** After a Stop of everything, what is left open was left open for a reason a caller can see. */
  predicate StopAllReaches(s: State, closing: bool, missed: set<string>, id: string)
    requires id in s.log
  {
    match s.log[id].status
    case Requested => !closing && CardFor(s, id, Filter("", "", "")) && id !in missed
    case Approved => !closing && !Fails(s, Filter("", "", ""), missed) && id !in missed
    case _ => true
  }

  lemma StopAllPuts(s: State, closing: bool, missed: set<string>, id: string)
    requires Inv(s) && s.gate.Open? && id in s.log
    ensures var t := StopAll(s, closing, missed);
            id in t.log && (Over(t, id) <==> StopAllReaches(s, closing, missed, id))
  {
    var u := Flagged(s, "");
    var f := Filter("", "", "");
    SweepDecides(u, f, "", missed, id);
    SweepMoves(u, f, "", missed);
    SweepSweeps(u, f, "", missed);
    assert CardFor(u, id, f) <==> CardFor(s, id, f);
    assert Fails(u, f, missed) <==> Fails(s, f, missed);
  }

  /** A Stop of everything is final for an approval that exists by then, in every future, if and only if: it was
      decided against or claimed already; or it was undecided, its card is in memory and its verdict is
      recorded; or it was allowed and waiting, every due verdict is recorded and so is its own. While closing,
      only tickets are stopped. */
  lemma StopAllIsFinalIff(s: State, closing: bool, missed: set<string>, id: string)
    requires Inv(s) && s.gate.Open? && id in s.log
    ensures Final(StopAll(s, closing, missed), id) <==> StopAllReaches(s, closing, missed, id)
  {
    StopAllPuts(s, closing, missed, id);
    NextKeepsInv(s, StopAllStep(closing, missed));
    NeverPassesIff(Next(s, StopAllStep(closing, missed)), id);
  }

  ghost predicate HasCardOf(s: State, run: string) {
    exists i :: 0 <= i < |s.pending| && s.pending[i].1.run == run
  }

  lemma SelectedSome(p: Pending, run: string)
    requires run != ""
    ensures Selected(p, Filter(run, "", ""), true) != [] <==> exists i :: 0 <= i < |p| && p[i].1.run == run
  {
    var stale := Selected(p, Filter(run, "", ""), true);
    SelectedExactly(p, Filter(run, "", ""), true);
    if stale != [] { assert stale[0] in p; }
    if i :| 0 <= i < |p| && p[i].1.run == run { assert p[i] in stale; }
  }

  ghost predicate StopRunReaches(s: State, run: string, task: string, closing: bool, missed: set<string>, id: string)
    requires id in s.log
  {
    var known := run in s.registry.active && s.registry.active[run].session != "";
    var session, f := (if known then s.registry.active[run].session else task), Filter(run, "", "");
    match s.log[id].status
    case Requested => session != "" && !closing && CardFor(s, id, f) && id !in missed
    case Approved => session != "" && !closing && !Fails(s, f, missed) && id !in missed && s.log[id].session == session
    case Claimed => !Live(s, id) || (session != "" && (closing || HasCardOf(s, run)))
    case _ => true
  }

  lemma StopRunPuts(s: State, run: string, task: string, closing: bool, missed: set<string>, id: string)
    requires Inv(s) && s.gate.Open? && run != "" && id in s.log
    ensures var t := StopRun(s, run, task, closing, missed);
            id in t.log && (Over(t, id) <==> StopRunReaches(s, run, task, closing, missed, id))
  {
    var u, session, f := Flagged(s, run), SessionOf(s, run, task), Filter(run, "", "");
    SweepDecides(u, f, session, missed, id);
    SweepMoves(u, f, session, missed);
    SweepSweeps(u, f, session, missed);
    SelectedSome(s.pending, run);
    assert CardFor(u, id, f) <==> CardFor(s, id, f);
    assert Fails(u, f, missed) <==> Fails(s, f, missed);
  }

  /** When a Stop of one run is final for an approval, in every future: for one that is undecided, exactly when the
      run is known, the service is not closing, its card is one of the run's and its verdict is recorded; for
      one that waits to be claimed, when it is of the run's session and every verdict is recorded; for one that
      was claimed, when its ticket was out of date or some card of the run makes the generation move. */
  lemma StopRunIsFinalIff(s: State, run: string, task: string, closing: bool, missed: set<string>, id: string)
    requires Inv(s) && s.gate.Open? && run != "" && id in s.log
    ensures Final(StopRun(s, run, task, closing, missed), id) <==> StopRunReaches(s, run, task, closing, missed, id)
  {
    StopRunPuts(s, run, task, closing, missed, id);
    NextKeepsInv(s, StopRunStep(run, task, closing, missed));
    NeverPassesIff(Next(s, StopRunStep(run, task, closing, missed)), id);
  }

  /** When the end of a run that was cut short is final for an approval: as for a Stop of that run, but without the
      run's flag, and in all sessions if none is named. */
  lemma AbortIsFinalIff(s: State, run: string, session: string, missed: set<string>, id: string)
    requires Inv(s) && id in s.log && run != ""
    ensures !s.gate.Open? ==> Next(s, AbortStep(run, session, missed)) == s
    ensures s.gate.Open? ==>
            var t, f := Next(s, AbortStep(run, session, missed)), Filter(run, "", "");
            && t.registry == s.registry
            && (Final(t, id) <==>
                  match s.log[id].status
                  case Requested => CardFor(s, id, f) && id !in missed
                  case Approved => !Fails(s, f, missed) && id !in missed && (session == "" || s.log[id].session == session)
                  case Claimed => !Live(s, id) || HasCardOf(s, run)
                  case _ => true)
  {
    var f := Filter(run, "", "");
    SweepDecides(s, f, session, missed, id);
    SweepMoves(s, f, session, missed);
    SweepSweeps(s, f, session, missed);
    SelectedSome(s.pending, run);
    NextKeepsInv(s, AbortStep(run, session, missed));
    if s.gate.Open? { NeverPassesIff(Next(s, AbortStep(run, session, missed)), id); }
  }

  /** An expiry moves the generation, but an undecided approval it does not select can still be allowed and run,
      although its card carries the old stamp. */
  lemma OldStampCanStillRun(s: State, f: Filter, missed: set<string>, id: string) returns (steps: seq<Step>)
    requires Inv(s) && Is(s, id, Requested) && !CardFor(s, id, f)
    ensures PassesAfter(Expire(s, f, missed), steps, id)
  {
    NextKeepsInv(s, ExpireStep(f, missed));
    NotDueStays(s, f, missed, id);
    steps := RequestedCanPass(Next(s, ExpireStep(f, missed)), id);
  }

  lemma NotDueStays(s: State, f: Filter, missed: set<string>, id: string)
    requires Is(s, id, Requested) && !CardFor(s, id, f)
    ensures Is(Expire(s, f, missed), id, Requested)
  {
    DueIff(s, f, id);
  }

  // ---------------------------------------------------------------- tickets

  /** A minted ticket is never replaced: its approval is not claimed again. */
  ghost predicate Fixed(s: State, id: string, ticket: Ticket) {
    && id in s.log && (s.log[id].status == Claimed || s.log[id].status == Settled)
    && !(s.gate.Minting? && s.gate.id == id) && (id in s.tickets ==> s.tickets[id] == ticket)
  }

  lemma FixedStep(s: State, step: Step, id: string, ticket: Ticket)
    requires Fixed(s, id, ticket)
    ensures Fixed(Next(s, step), id, ticket)
  {
    NextFollows(s, step);
    if Sweeps(step) {
      SweepStepDoes(s, step);
    } else {
      match step {
        case AcceptStep(x, allow, ok) => AcceptDoes(s, x, allow, ok);
        case MintStep => MintDoes(s);
        case _ =>
      }
    }
  }

  lemma {:induction false} FixedStays(s: State, steps: seq<Step>, id: string, ticket: Ticket)
    requires Fixed(s, id, ticket)
    ensures Fixed(Run(s, steps), id, ticket)
    decreases |steps|
  {
    if steps != [] {
      FixedStep(s, steps[0], id, ticket);
      FixedStays(Next(s, steps[0]), steps[1..], id, ticket);
    }
  }

  /** When a ticket passes the executor's check, at any time after it was minted: exactly while it is unused, the
      gate is free, the generation is still that of its claim, and the flag its run is answered with is clear. */
  lemma PassesCheckIff(s: State, steps: seq<Step>, id: string)
    requires Inv(s) && id in s.tickets
    ensures var t := Run(s, steps);
            Passes(t, id) <==>
              t.gate.Open? && id in t.tickets && t.generation == s.tickets[id].stamp && !Runs.Flag(t.registry, s.tickets[id].run)
  {
    assert Is(s, id, Claimed);
    FixedStays(s, steps, id, s.tickets[id]);
  }

  /** The stamp and the source a claim goes by: its card's, or the current generation and none. */
  function Grounds(s: State, id: string): (nat, string) {
    match Find(s.pending, id)
    case Some(i) => (s.pending[i].1.stamp, s.pending[i].1.source)
    case None => (s.generation, "")
  }

  /** When a claim of an allowed approval yields a ticket, whatever comes between its two halves: exactly when the
      generation is still the one it goes by and that source's flag is clear. The ticket is then for the source,
      or for the approval's own run. */
  lemma ClaimGetsTicketIff(s: State, id: string, between: seq<Step>)
    requires Inv(s) && s.gate.Open? && Is(s, id, Approved)
    requires Run(Claim(s, id, true), between).gate == Claim(s, id, true).gate
    ensures var u := Run(Claim(s, id, true), between);
            var (stamp, source) := Grounds(s, id);
            var t := Mint(u);
            && (id in t.tickets <==> u.generation == stamp && !Runs.Flag(u.registry, source))
            && (id in t.tickets ==> t.tickets[id] == Ticket(stamp, if source != "" then source else s.log[id].run))
  {
    var c := Claim(s, id, true);
    var u := Run(c, between);
    NextKeepsInv(s, ClaimStep(id, true));
    RunKeepsInv(c, between);
    DecisionIsFinal(c, between);
    MintDoes(u);
  }

  /** Steps that leave a registered run its flag: none clears it, ends the run or hands its registration on. */
  ghost predicate Spares(r: Runs.Registry, step: Step, run: string) {
    step.RegistryStep? ==>
      match step.step
      case ClearStep(x) => Runs.Target(r, x) != run
      case ReleaseStep(x) => x != run
      case ReplaceStep(from, to, _) => from != run && to != run
      case _ => true
  }

  ghost predicate AllSpare(s: State, steps: seq<Step>, run: string)
    decreases |steps|
  {
    steps == [] || (Spares(s.registry, steps[0], run) && AllSpare(Next(s, steps[0]), steps[1..], run))
  }

  /** While a stopped run stays registered, none of its tickets passes the check. */
  lemma {:induction false} StoppedWhileRegistered(s: State, steps: seq<Step>, id: string, ticket: Ticket)
    requires Inv(s) && Fixed(s, id, ticket) && ticket.run in s.registry.active && Runs.Flag(s.registry, ticket.run)
    requires AllSpare(s, steps, ticket.run)
    ensures !PassesAfter(s, steps, id)
    decreases |steps|
  {
    if steps != [] {
      var t := Next(s, steps[0]);
      NextKeepsInv(s, steps[0]);
      if steps[0].RestartStep? {
        OverStays(t, steps[1..], id);
      } else {
        FixedStep(s, steps[0], id, ticket);
        SparedStep(s, steps[0], ticket.run);
        StoppedWhileRegistered(t, steps[1..], id, ticket);
      }
    }
  }

  lemma SparedStep(s: State, step: Step, run: string)
    requires run in s.registry.active && Runs.Flag(s.registry, run) && Spares(s.registry, step, run) && !step.RestartStep?
    ensures run in Next(s, step).registry.active && Runs.Flag(Next(s, step).registry, run)
  {
    RegistryAfter(s, step);
    match step {
      case StopRunStep(x, _, _, _) => Runs.FlagAfter(s.registry, Runs.StopStep(x), run);
      case StopAllStep(_, _) => Runs.FlagAfter(s.registry, Runs.StopStep(""), run);
      case RegistryStep(x) => Runs.FlagAfter(s.registry, x, run);
      case _ =>
    }
  }

  lemma RegistryAfter(s: State, step: Step)
    requires !step.RestartStep?
    ensures var r := Next(s, step).registry;
            match step
            case StopRunStep(x, _, _, _) => r == s.registry || r == Runs.RequestStop(s.registry, x)
            case StopAllStep(_, _) => r == s.registry || r == Runs.RequestStop(s.registry, "")
            case RegistryStep(x) => r == Runs.Next(s.registry, x)
            case _ => r == s.registry
  {
    match step {
      case AcceptStep(x, allow, ok) => AcceptDoes(s, x, allow, ok);
      case MintStep => MintDoes(s);
      case _ =>
    }
  }

  // --------------------------------------------------------------- witnesses

  /** A registered run's command, requested, allowed and claimed. */
  function Claiming(id: string, run: string, session: string): seq<Step> {
    [RegistryStep(Runs.ReserveStep(run, session, false)), RequestStep(id, run, session), AcceptStep(id, true, true),
     ClaimStep(id, true), MintStep]
  }

  lemma ClaimedByRun(id: string, run: string, session: string)
    ensures var s := Run(Start(), Claiming(id, run, session));
            && s.pending == [] && s.tickets == map[id := Ticket(0, run)] && s.generation == 0 && s.gate.Open?
            && s.log == map[id := Approval(run, session, Claimed)]
            && s.registry.active.Keys == {run} && !s.registry.stopFlag
  {
    var steps := Claiming(id, run, session);
    var s1 := Next(Start(), steps[0]);
    assert s1.registry.active == map[run := Runs.Active(session, false)];
    var s2 := Next(s1, steps[1]);
    assert s2.log == map[id := Approval(run, session, Requested)];
    var s3 := Next(s2, steps[2]);
    assert s3.log == map[id := Approval(run, session, Approved)] && s3.pending == [];
    var s4 := Next(s3, steps[3]);
    assert s4.log == map[id := Approval(run, session, Claimed)] && s4.gate == Minting(id, 0, "");
    NoRunNoFlag(s4.registry, run);
    RunFive(Start(), steps[0], steps[1], steps[2], steps[3], steps[4]);
  }

  lemma NoRunNoFlag(r: Runs.Registry, run: string)
    requires !r.stopFlag && forall x :: x in r.active ==> !r.active[x].stopped
    ensures !Runs.Flag(r, "")
  {
  }

  lemma RunFive(s: State, a: Step, b: Step, c: Step, d: Step, e: Step)
    ensures Run(s, [a, b, c, d, e]) == Next(Next(Next(Next(Next(s, a), b), c), d), e)
  {
    RunCons(s, a, [b, c, d, e]);
    RunCons(Next(s, a), b, [c, d, e]);
    RunCons(Next(Next(s, a), b), c, [d, e]);
    RunCons(Next(Next(Next(s, a), b), c), d, [e]);
    RunOne(Next(Next(Next(Next(s, a), b), c), d), e);
    assert [a, b, c, d, e] == [a] + [b, c, d, e] && [b, c, d, e] == [b] + [c, d, e];
    assert [c, d, e] == [c] + [d, e] && [d, e] == [d] + [e];
  }

  /** A command is claimed, its run ends, and then that run is stopped: no card of the run is left, the run has no
      flag any more, and the ticket passes the check. */
  lemma StopMissesClaimed(id: string, run: string, session: string)
    requires run != "" && session != ""
    ensures var s := Run(Start(), Claiming(id, run, session));
            Passes(Next(Next(s, RegistryStep(Runs.ReleaseStep(run))), StopRunStep(run, session, false, {})), id)
  {
    ClaimedByRun(id, run, session);
    EndedThenStopped(Run(Start(), Claiming(id, run, session)), id, run, session);
  }

  lemma EndedThenStopped(s: State, id: string, run: string, session: string)
    requires run != "" && session != "" && s.pending == [] && s.tickets == map[id := Ticket(0, run)] && s.generation == 0
    requires s.gate.Open? && s.registry.active.Keys == {run} && !s.registry.stopFlag
    ensures Passes(Next(Next(s, RegistryStep(Runs.ReleaseStep(run))), StopRunStep(run, session, false, {})), id)
  {
    var ended := Next(s, RegistryStep(Runs.ReleaseStep(run)));
    assert ended.registry.active == map[] && !ended.registry.stopFlag;
    var t := Next(ended, StopRunStep(run, session, false, {}));
    SweepMoves(Flagged(ended, run), Filter(run, "", ""), session, {});
    SweepSweeps(Flagged(ended, run), Filter(run, "", ""), session, {});
    assert t.generation == 0 && t.tickets == s.tickets && t.registry == Flagged(ended, run).registry;
  }

  /** A Stop of everything whose verdict on a card cannot be recorded, one that falls between a request and its
      card, and one while closing: the command can still be run. */
  lemma StopAllMisses(id: string, run: string, source: string, session: string)
    ensures var asked := Next(Start(), RequestStep(id, run, session));
            var shown := Next(asked, AddStep(id, run, source, session));
            && !Final(StopAll(shown, false, {id}), id) && !Final(StopAll(asked, false, {}), id)
            && !Final(StopAll(shown, true, {}), id)
  {
    var asked := Next(Start(), RequestStep(id, run, session));
    var shown := Next(asked, AddStep(id, run, source, session));
    NextKeepsInv(Start(), RequestStep(id, run, session));
    NextKeepsInv(asked, AddStep(id, run, source, session));
    StopAllIsFinalIff(shown, false, {id}, id);
    StopAllIsFinalIff(asked, false, {}, id);
    StopAllIsFinalIff(shown, true, {}, id);
  }

  /** In the other direction: after a Stop that found no run, a later command cannot be allowed, although nothing
      has stopped it. */
  lemma LateCommandIsRefused(id: string, run: string, source: string, session: string)
    ensures var s := Next(Next(Next(Start(), StopAllStep(false, {})), RequestStep(id, run, session)), AddStep(id, run, source, session));
            Is(s, id, Requested) && Next(s, AcceptStep(id, true, true)) == s
  {
    var stopped := Next(Start(), StopAllStep(false, {}));
    SweepSweeps(Flagged(Start(), ""), Filter("", "", ""), "", {});
    assert stopped.registry.stopFlag && stopped.registry.active == map[] && stopped.log.Keys == {} && stopped.gate.Open?;
    var asked := Next(stopped, RequestStep(id, run, session));
    assert Is(asked, id, Requested) && asked.log[id].run == run;
  }

  // --------------------------------------------------------------- object

  class ApprovalRegistry {
    var pending: Pending
    var generation: nat
    var added: nat

    ghost predicate Valid()
      reads this
    {
      UniqueKeys(pending) && forall i :: 0 <= i < |pending| ==> pending[i].1.serial < added && pending[i].1.stamp <= generation
    }

    constructor ()
      ensures Valid() && pending == [] && generation == 0 && added == 0
    {
      pending, generation, added := [], 0, 0;
    }

    /** Puts every record, pending or claimed, out of date without removing any. */
    method Invalidate()
      requires Valid()
      modifies this`generation
      ensures Valid() && generation == old(generation) + 1
      ensures forall i :: 0 <= i < |pending| ==> pending[i].1.stamp < generation
    {
      generation := generation + 1;
    }

    method Locate(id: string) returns (r: Option<nat>)
      ensures r == Find(pending, id)
    {
      r := None;
      for i := 0 to |pending|
        invariant r == Find(pending[..i], id)
      {
        assert pending[..i + 1][..i] == pending[..i];
        if r.None? && pending[i].0 == id { r := Some(i); }
      }
      assert pending[..|pending|] == pending;
    }

    method Add(id: string, run: string, source: string, session: string)
      requires Valid()
      modifies this`pending, this`added
      ensures Valid() && added == old(added) + 1
      ensures var record := Record(old(added), run, source, session, generation);
              pending == match Find(old(pending), id)
                         case None => old(pending) + [(id, record)]
                         case Some(i) => old(pending)[i := (id, record)]
    {
      var at := Locate(id);
      var record := Record(added, run, source, session, generation);
      added := added + 1;
      pending := if at.Some? then pending[at.value := (id, record)] else pending + [(id, record)];
    }

    method Pop(id: string) returns (r: Option<Record>)
      requires Valid()
      modifies this`pending
      ensures Valid()
      ensures match Find(old(pending), id)
              case None => r == None && pending == old(pending)
              case Some(i) => r == Some(old(pending)[i].1) && pending == Without(old(pending), i)
    {
      var at := Locate(id);
      if at.None? { return None; }
      RemoveAt(pending, at.value);
      r := Some(pending[at.value].1);
      pending := pending[..at.value] + pending[at.value + 1..];
    }

    /** Where a sweep over a snapshot stands: `done` was considered, `rest` was not. */
    ghost predicate Swept(all: Pending, f: Filter, done: Pending, rest: Pending, stale: Pending)
      reads this
    {
      && all == done + rest
      && pending == Selected(done, f, false) + rest
      && stale == Selected(done, f, true)
    }

    /** Considers the next entry of the snapshot. */
    method Consider(all: Pending, i: nat, f: Filter, before: Pending, ghost done: Pending, ghost rest: Pending)
      returns (stale: Pending, ghost done': Pending, ghost rest': Pending)
      requires Valid() && i == |done| < |all| && Swept(all, f, done, rest, before)
      modifies this`pending
      ensures Valid() && |done'| == i + 1 && Swept(all, f, done', rest', stale)
    {
      var x := all[i];
      ghost var kept := Selected(done, f, false);
      SelectedSnoc(done, x, f, true);
      SelectedSnoc(done, x, f, false);
      DropHead(kept, rest);
      DropHead(done, rest);
      done', rest' := done + [x], rest[1..];
      stale := before;
      if Matches(f, x.1) {
        FindUnique(pending, |kept|);
        var r := Pop(x.0);
        stale := stale + [x];
      }
    }

    method PopMatching(f: Filter) returns (stale: Pending)
      requires Valid()
      modifies this`pending
      ensures Valid()
      ensures stale == Selected(old(pending), f, true) && pending == Selected(old(pending), f, false)
    {
      var all := pending;
      stale := [];
      var i := 0;
      ghost var done: Pending, rest := [], all;
      while i < |all|
        invariant Valid() && |done| == i && Swept(all, f, done, rest, stale)
      {
        stale, done, rest := Consider(all, i, f, stale, done, rest);
        i := i + 1;
      }
      assert rest == [] && done == all;
    }

    /** `expire_shell_results`: pops every matching record of a snapshot and bumps the generation. */
    method ExpireResults(f: Filter) returns (stale: Pending)
      requires Valid()
      modifies this`pending, this`generation
      ensures Valid()
      ensures stale == Selected(old(pending), f, true) && pending == Selected(old(pending), f, false)
      ensures generation == if stale != [] || Unfiltered(f) then old(generation) + 1 else old(generation)
      ensures Unfiltered(f) ==> pending == []
    {
      NothingKept(pending, f);
      stale := PopMatching(f);
      if stale != [] || Unfiltered(f) { generation := generation + 1; }
    }

    /** The expiry as the context calls it, under its lock: if a verdict that is due cannot be recorded, every
        record stays and is put out of date. */
    method ExpireRecorded(f: Filter, failed: bool) returns (stale: Pending)
      requires Valid()
      modifies this`pending, this`generation
      ensures Valid()
      ensures failed ==> stale == [] && pending == old(pending) && forall i :: 0 <= i < |pending| ==> pending[i].1.stamp < generation
      ensures !failed ==> stale == Selected(old(pending), f, true) && pending == Selected(old(pending), f, false)
      ensures generation == if failed || stale != [] || Unfiltered(f) then old(generation) + 1 else old(generation)
    {
      stale := [];
      if failed {
        Invalidate();
      } else {
        stale := ExpireResults(f);
      }
    }
  }

  lemma SelectedSnoc(p: Pending, x: (string, Record), f: Filter, wanted: bool)
    ensures Selected(p + [x], f, wanted) == Selected(p, f, wanted) + (if Matches(f, x.1) == wanted then [x] else [])
  {
    assert (p + [x])[..|p|] == p;
  }

  lemma FindUnique(p: Pending, j: nat)
    requires j < |p| && UniqueKeys(p)
    ensures Find(p, p[j].0) == Some(j)
  {
    var r := Find(p, p[j].0);
    assert r.Some?;
  }

  lemma DropHead(kept: Pending, rest: Pending)
    requires rest != []
    ensures Without(kept + rest, |kept|) == kept + rest[1..] && kept + rest == (kept + [rest[0]]) + rest[1..]
  {
    assert (kept + rest)[..|kept|] == kept;
    assert (kept + rest)[|kept| + 1..] == rest[1..];
  }

  lemma {:induction false} NothingKept(p: Pending, f: Filter)
    ensures Unfiltered(f) ==> Selected(p, f, false) == []
  {
    if p != [] { NothingKept(p[..|p| - 1], f); }
  }
}
