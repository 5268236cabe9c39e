/**
 * The stop flags of the run registry. A run has its own flag only while it is
 * registered; every other id is answered with one flag for admissions, which a
 * new reservation clears.
 */
module RunRegistry {
  import opened Collections

  /** A registered run. */
  datatype Active = Active(session: string, stopped: bool)

  /** `order` lists the registered ids, oldest first; `cancelled` are ids that may not be admitted, oldest
      first. */
  datatype Registry = Registry(
    active: map<string, Active>, order: seq<string>, current: string, stopFlag: bool, cancelled: seq<string>)

  const CANCELLED_LIMIT := 4096

  function Start(): Registry {
    Registry(map[], [], "", false, [])
  }

  /** `stop_flag_for(run).is_set()`. */
  predicate Flag(r: Registry, run: string) {
    if run in r.active then r.active[run].stopped else r.stopFlag
  }

  function Noted(cancelled: seq<string>, id: string): seq<string> {
    var all := if id in cancelled then cancelled else cancelled + [id];
    if |all| > CANCELLED_LIMIT then all[|all| - CANCELLED_LIMIT..] else all
  }

  /** The id a call speaks of: the current one when it names none. */
  function Target(r: Registry, run: string): string {
    if run != "" then run else r.current
  }

  /** Whether that id is a registered run. */
  predicate Named(r: Registry, run: string) {
    Target(r, run) != "" && Target(r, run) in r.active
  }

  function WithFlag(r: Registry, run: string, on: bool): Registry
    requires run in r.active
  {
    r.(active := r.active[run := r.active[run].(stopped := on)])
  }

  function RequestStop(r: Registry, run: string): Registry {
    var noted := if run != "" then r.(cancelled := Noted(r.cancelled, run)) else r;
    if Named(r, run) then WithFlag(noted, Target(r, run), true)
    else if run == "" then noted.(stopFlag := true) else noted
  }

  function ClearStop(r: Registry, run: string): Registry {
    if Named(r, run) then WithFlag(r, Target(r, run), false) else r.(stopFlag := false)
  }

  predicate SessionBusy(r: Registry, session: string) {
    exists run :: run in r.active && r.active[run].session == session
  }

  /** Whether a reservation of an id admits a new run. */
  predicate Admits(r: Registry, run: string, session: string, abortIfStopped: bool) {
    !(abortIfStopped && r.stopFlag) && run !in r.cancelled && run !in r.active && !SessionBusy(r, session)
  }

  function Reserve(r: Registry, run: string, session: string, abortIfStopped: bool): Registry {
    if Admits(r, run, session, abortIfStopped)
    then Registry(r.active[run := Active(session, false)], r.order + [run], run, false, r.cancelled) else r
  }

  function Removed(order: seq<string>, run: string): seq<string> {
    if order == [] then []
    else (if order[0] == run then [] else [order[0]]) + Removed(order[1..], run)
  }

  /** `release` and `finish`: the run's own flag goes with it. */
  function Release(r: Registry, run: string): Registry {
    var rest := Removed(r.order, run);
    r.(active := r.active - {run}, order := rest,
       current := if r.current != run then r.current else if rest == [] then "" else rest[|rest| - 1])
  }

  /** `replace_active`: another id takes over a registration and its flag. */
  function Replace(r: Registry, from: string, run: string, session: string): Registry {
    if from !in r.active then r
    else
      var rest := Removed(r.order, from);
      r.(active := (r.active - {from})[run := Active(session, r.active[from].stopped)],
         order := if run in rest then rest else rest + [run],
         current := if r.current == from then run else r.current)
  }

  /** The order lists each registered id once, and the current one is registered when anything is. */
  ghost predicate Valid(r: Registry) {
    && Elems(r.order) == r.active.Keys && Distinct(r.order)
    && (if r.order == [] then r.current == "" else r.current in r.active)
  }

  lemma {:induction false} RemovedIs(order: seq<string>, run: string)
    requires Distinct(order)
    ensures Elems(Removed(order, run)) == Elems(order) - {run} && Distinct(Removed(order, run))
  {
    if order != [] {
      RemovedIs(order[1..], run);
      var first, rest := if order[0] == run then [] else [order[0]], Removed(order[1..], run);
      assert order[0] !in order[1..];
      assert order[0] !in Elems(rest);
      assert Elems(order) == {order[0]} + Elems(order[1..]);
      assert Elems(first + rest) == Elems(first) + Elems(rest);
    }
  }

  datatype Step =
    | StopStep(run: string) | ClearStep(run: string) | ReserveStep(run: string, session: string, abortIfStopped: bool)
    | ReleaseStep(run: string) | ReplaceStep(from: string, run: string, session: string)

  function Next(r: Registry, step: Step): Registry {
    match step
    case StopStep(run) => RequestStop(r, run)
    case ClearStep(run) => ClearStop(r, run)
    case ReserveStep(run, session, abort) => Reserve(r, run, session, abort)
    case ReleaseStep(run) => Release(r, run)
    case ReplaceStep(from, run, session) => Replace(r, from, run, session)
  }

  lemma NextKeepsValid(r: Registry, step: Step)
    requires Valid(r)
    ensures Valid(Next(r, step))
  {
    match step {
      case ReserveStep(run, session, abort) => assert Elems(r.order + [run]) == Elems(r.order) + {run};
      case ReleaseStep(run) => ReleaseKeepsValid(r, run);
      case ReplaceStep(from, run, session) => if from in r.active { ReplaceKeepsValid(r, from, run, session); }
      case _ =>
    }
  }

  lemma ReleaseKeepsValid(r: Registry, run: string)
    requires Valid(r)
    ensures Valid(Release(r, run))
  {
    RemovedIs(r.order, run);
    var rest := Removed(r.order, run);
    assert rest != [] ==> rest[|rest| - 1] in Elems(rest);
    assert rest == [] ==> Elems(r.order) <= {run};
    assert r.current in r.active ==> r.current in Elems(r.order);
  }

  lemma ReplaceKeepsValid(r: Registry, from: string, run: string, session: string)
    requires Valid(r) && from in r.active
    ensures Valid(Replace(r, from, run, session))
  {
    RemovedIs(r.order, from);
    var rest := Removed(r.order, from);
    assert Elems(rest + [run]) == Elems(rest) + {run};
    assert r.order != [] by { assert from in Elems(r.order); }
    var t := Replace(r, from, run, session);
    assert run in Elems(t.order);
  }

  /** What each step does to the flag an id is answered with, for every id. A stop sets it for its target if that
      is registered; one that names no run and finds none current sets it for every unregistered id. */
  lemma FlagAfter(r: Registry, step: Step, x: string)
    ensures !Flag(Start(), x)
    ensures var target := if step.StopStep? || step.ClearStep? then (if step.run == "" then r.current else step.run) else "";
            Flag(Next(r, step), x) <==>
            match step
            case StopStep(run) =>
              Flag(r, x) || (if target != "" && target in r.active then x == target else run == "" && x !in r.active)
            case ClearStep(run) =>
              Flag(r, x) && (if target != "" && target in r.active then x != target else x in r.active)
            case ReserveStep(run, session, abort) =>
              Flag(r, x) && (Admits(r, run, session, abort) ==> x in r.active)
            case ReleaseStep(run) => if x == run then r.stopFlag else Flag(r, x)
            case ReplaceStep(from, run, session) =>
              if from !in r.active then Flag(r, x)
              else if x == run then Flag(r, from) else if x == from then r.stopFlag else Flag(r, x)
  {
  }

  /** What a reservation does: it registers the run, as the current one and with its flag clear, exactly if the id
      was not cancelled, is not registered, its session has no run, and no Stop is pending that it gives way to. */
  lemma ReservesIff(r: Registry, run: string, session: string, abortIfStopped: bool)
    requires run !in r.active
    ensures var t := Reserve(r, run, session, abortIfStopped);
            && (run in t.active <==>
                  run !in r.cancelled && (forall x :: x in r.active ==> r.active[x].session != session)
                  && (abortIfStopped ==> !r.stopFlag))
            && (if run in t.active
                then t == Registry(r.active[run := Active(session, false)], r.order + [run], run, false, r.cancelled) else t == r)
  {
  }

  /** What a release does: the run is gone, and if it was the current one the newest other run is. */
  lemma ReleaseForgets(r: Registry, run: string)
    requires Valid(r)
    ensures var t := Release(r, run);
            && run !in t.active && (forall x :: x != run ==> (x in t.active <==> x in r.active))
            && (forall x :: x in t.active ==> t.active[x] == r.active[x])
            && t.cancelled == r.cancelled && t.stopFlag == r.stopFlag
            && (r.current != run ==> t.current == r.current)
            && (r.current == run && t.order != [] ==> t.current == t.order[|t.order| - 1])
            && (r.current == run && t.order == [] ==> t.current == "")
    ensures run !in r.order ==> Release(r, run).order == r.order
    ensures forall i :: 0 <= i < |r.order| && r.order[i] == run ==> Release(r, run).order == Without(r.order, i)
  {
    RemovedIs(r.order, run);
    RemovedKeepsOrder(r.order, run);
  }

  lemma {:induction false} RemovedKeepsOrder(order: seq<string>, run: string)
    requires Distinct(order)
    ensures run !in order ==> Removed(order, run) == order
    ensures forall i :: 0 <= i < |order| && order[i] == run ==> Removed(order, run) == Without(order, i)
  {
    if order != [] {
      var rest := order[1..];
      RemovedKeepsOrder(rest, run);
      forall i | 0 <= i < |order| && order[i] == run ensures Removed(order, run) == Without(order, i) {
        if i == 0 {
          assert run !in rest;
          assert Without(order, 0) == rest;
        } else {
          assert rest[i - 1] == run;
          assert Without(order, i) == [order[0]] + Without(rest, i - 1);
        }
      }
    }
  }

  /** What a replacement does: the new id has the registration, the flag and, if the old one had it, the turn. */
  lemma ReplaceHandsOn(r: Registry, from: string, run: string, session: string)
    requires Valid(r) && from in r.active && run != from
    ensures var t := Replace(r, from, run, session);
            && from !in t.active && run in t.active && t.active[run] == Active(session, r.active[from].stopped)
            && (forall x :: x != from && x != run ==> (x in t.active <==> x in r.active) && (x in t.active ==> t.active[x] == r.active[x]))
            && t.current == (if r.current == from then run else r.current)
            && t.cancelled == r.cancelled && t.stopFlag == r.stopFlag
            && (run !in r.active ==> t.order == Removed(r.order, from) + [run])
            && (run in r.active ==> t.order == Removed(r.order, from))
  {
    RemovedIs(r.order, from);
    assert run in Elems(r.order) <==> run in r.active;
    assert run in Removed(r.order, from) <==> run in Elems(Removed(r.order, from));
  }

  function Run(r: Registry, steps: seq<Step>): Registry
    decreases |steps|
  {
    if steps == [] then r else Run(Next(r, steps[0]), steps[1..])
  }

  lemma RunCons(r: Registry, step: Step, rest: seq<Step>)
    ensures Run(r, [step] + rest) == Run(Next(r, step), rest)
  {
    assert ([step] + rest)[1..] == rest;
  }

  /** How many steps stop a named id. */
  function NamedStops(steps: seq<Step>): nat {
    if steps == [] then 0 else (if steps[0].StopStep? && steps[0].run != "" then 1 else 0) + NamedStops(steps[1..])
  }

  /** A cancelled id is remembered, and never admitted, as long as not too many others are cancelled after it: each
      newer one can push out one older one once 4096 are noted. */
  lemma {:induction false} CancelledIsRefused(r: Registry, steps: seq<Step>, i: nat, session: string, abortIfStopped: bool)
    requires i < |r.cancelled| <= CANCELLED_LIMIT && |r.cancelled| + NamedStops(steps) <= CANCELLED_LIMIT + i
    ensures var t := Run(r, steps);
            && r.cancelled[i] in t.cancelled && Reserve(t, r.cancelled[i], session, abortIfStopped) == t
    decreases |steps|
  {
    if steps != [] {
      var t := Next(r, steps[0]);
      var pushed := t.cancelled != r.cancelled && |t.cancelled| == |r.cancelled|;
      NotedKeeps(r, steps[0]);
      CancelledIsRefused(t, steps[1..], if pushed then i - 1 else i, session, abortIfStopped);
    }
  }

  /** One step notes at most one id, at the end, and pushes out at most the oldest, only when the list is full. */
  lemma NotedKeeps(r: Registry, step: Step)
    requires |r.cancelled| <= CANCELLED_LIMIT
    ensures var t := Next(r, step);
            && |t.cancelled| <= CANCELLED_LIMIT
            && (if step.StopStep? && step.run != "" && step.run !in r.cancelled then
                  if |r.cancelled| < CANCELLED_LIMIT then t.cancelled == r.cancelled + [step.run]
                  else t.cancelled == r.cancelled[1..] + [step.run]
                else t.cancelled == r.cancelled)
  {
    if step.StopStep? && step.run != "" && step.run !in r.cancelled {
      var all := r.cancelled + [step.run];
      assert |r.cancelled| == CANCELLED_LIMIT ==> all[1..] == r.cancelled[1..] + [step.run];
    }
  }

  /** The bound is exact: the oldest id of a full list is forgotten with the next one. */
  lemma OldestIsForgotten(r: Registry, run: string)
    requires |r.cancelled| == CANCELLED_LIMIT && Distinct(r.cancelled) && run != "" && run !in r.cancelled
    ensures r.cancelled[0] !in RequestStop(r, run).cancelled
  {
    NotedKeeps(r, StopStep(run));
    forall i | 0 <= i < |r.cancelled[1..] + [run]| ensures (r.cancelled[1..] + [run])[i] != r.cancelled[0] {
      if i < CANCELLED_LIMIT - 1 { assert r.cancelled[0] != r.cancelled[i + 1]; }
    }
  }

  /** The registry, one method per lock section. */
  class Runs {
    var active: map<string, Active>
    var order: seq<string>
    var current: string
    var stopFlag: bool
    var cancelled: seq<string>

    ghost function View(): Registry
      reads this
    {
      Registry(active, order, current, stopFlag, cancelled)
    }

    constructor ()
      ensures View() == Start() && Valid(View())
    {
      active, order, current, stopFlag, cancelled := map[], [], "", false, [];
    }

    method StopFlagFor(run: string) returns (on: bool)
      ensures on == Flag(View(), run)
    {
      on := if run in active then active[run].stopped else stopFlag;
    }

    method NoteCancelled(id: string)
      modifies this`cancelled
      ensures cancelled == Noted(old(cancelled), id)
    {
      if id !in cancelled { cancelled := cancelled + [id]; }
      ghost var all := cancelled;
      while |cancelled| > CANCELLED_LIMIT
        invariant |all| > CANCELLED_LIMIT ==> CANCELLED_LIMIT <= |cancelled| <= |all| && cancelled == all[|all| - |cancelled|..]
        invariant |all| <= CANCELLED_LIMIT ==> cancelled == all
      {
        cancelled := cancelled[1..];
      }
    }

    method Stop(run: string) returns (found: bool)
      requires Valid(View())
      modifies this
      ensures View() == RequestStop(old(View()), run) && Valid(View())
      ensures found <==> Named(old(View()), run)
    {
      NextKeepsValid(View(), StopStep(run));
      var target := if run != "" then run else current;
      found := target != "" && target in active;
      if run != "" { NoteCancelled(target); }
      if found {
        active := active[target := active[target].(stopped := true)];
      } else if run == "" {
        stopFlag := true;
      }
    }

    method Clear(run: string)
      requires Valid(View())
      modifies this`active, this`stopFlag
      ensures View() == ClearStop(old(View()), run) && Valid(View())
    {
      NextKeepsValid(View(), ClearStep(run));
      var target := if run != "" then run else current;
      if target != "" && target in active {
        active := active[target := active[target].(stopped := false)];
      } else {
        stopFlag := false;
      }
    }

    method Admit(run: string, session: string, abortIfStopped: bool) returns (admitted: bool)
      requires Valid(View())
      modifies this
      ensures View() == Reserve(old(View()), run, session, abortIfStopped) && Valid(View())
      ensures admitted <==> Admits(old(View()), run, session, abortIfStopped)
    {
      NextKeepsValid(View(), ReserveStep(run, session, abortIfStopped));
      admitted := !(abortIfStopped && stopFlag) && run !in cancelled && run !in active
                  && !(exists x :: x in active && active[x].session == session);
      if admitted {
        stopFlag := false;
        active, order, current := active[run := Active(session, false)], order + [run], run;
      }
    }

    method Drop(run: string)
      requires Valid(View())
      modifies this`active, this`order, this`current
      ensures View() == Release(old(View()), run) && Valid(View())
    {
      NextKeepsValid(View(), ReleaseStep(run));
      active, order := active - {run}, Removed(order, run);
      if current == run { current := if order == [] then "" else order[|order| - 1]; }
    }

    method ReplaceActive(from: string, run: string, session: string) returns (replaced: bool)
      requires Valid(View())
      modifies this`active, this`order, this`current
      ensures View() == Replace(old(View()), from, run, session) && Valid(View())
      ensures replaced <==> from in old(active)
    {
      NextKeepsValid(View(), ReplaceStep(from, run, session));
      replaced := from in active;
      if replaced {
        var stopped, rest := active[from].stopped, Removed(order, from);
        active := (active - {from})[run := Active(session, stopped)];
        order := if run in rest then rest else rest + [run];
        if current == from { current := run; }
      }
    }
  }
}
