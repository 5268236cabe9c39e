/**
 * The desktop window's startup: preparation runs hold a gate but not the lock,
 * navigation happens outside both, and deadlines and UI reports arrive late.
 * Every function is one lock section; startup identities and deadline tokens
 * are fresh numbers.
 */
module DesktopStartup {

  import opened Collections

  /** A preparation run: begun, working on the trace it read, or past its gate release. */
  datatype Phase = Begun | Working(trace: nat) | Released(trace: nat)

  /** `url` is the startup identity its address carries. `armed` maps each deadline token to the
      identity it was armed for, `runs` holds the runs in flight, `loads` the `load_url` calls made.
      `message` is why the startup failed. */
  datatype State = State(
    closed: bool, shown: bool, bound: bool, started: bool, navigating: bool, failed: bool, message: string,
    url: Option<nat>, trace: nat, nextIdentity: nat,
    deadline: Option<nat>, armed: seq<nat>,
    gate: Option<nat>, runs: map<nat, Phase>, loads: seq<nat>)

  function Start(): State {
    State(false, false, false, false, false, false, "", None, 0, 1, None, [], None, map[], [])
  }

  function Cut(text: string): string {
    if |text| > 2000 then text[..2000] else text
  }

  function FailLocked(s: State, identity: nat, text: string): (t: State)
    ensures t.trace == s.trace && t.nextIdentity == s.nextIdentity
  {
    if identity != s.trace || s.closed then s
    else s.(deadline := None, navigating := false, url := None, failed := true, message := Cut(text))
  }

  /** The token is stored before the timer thread starts, which can fail. */
  function Arm(s: State): State {
    s.(deadline := Some(|s.armed|), armed := s.armed + [s.trace])
  }

  /** A new attempt starts from a clean display; a retry takes a new identity. */
  function Cleared(s: State, retry: bool): State {
    s.(started := true, trace := if retry then s.nextIdentity else s.trace,
       nextIdentity := if retry then s.nextIdentity + 1 else s.nextIdentity,
       failed := false, message := "", url := None, navigating := false)
  }

  function GateTaken(s: State): State {
    s.(gate := Some(s.trace), runs := s.runs[s.trace := Begun])
  }

  /** `timer` is the error of a deadline thread that could not be started. */
  function Begin(s: State, retry: bool, timer: Option<string>): State {
    if s.closed || (!retry && s.started) || (retry && !s.failed) || s.gate.Some? then s
    else
      var t := Cleared(s, retry);
      if s.shown then GateTaken(t)
      else match timer
        case None => GateTaken(Arm(t))
        case Some(text) => FailLocked(Arm(t), t.trace, text)
  }

  function ReadTrace(s: State, run: nat): State {
    if run in s.runs && s.runs[run].Begun? then s.(runs := s.runs[run := Working(s.trace)]) else s
  }

  /** The `finally` of a run, which returns early when the window was closed. */
  function ReleaseGate(s: State, run: nat): State {
    if run in s.runs && s.runs[run].Working? then s.(gate := None, runs := s.runs[run := Released(s.runs[run].trace)]) else s
  }

  function AbortRun(s: State, run: nat): State {
    if run in s.runs && s.runs[run].Released? && s.closed then s.(runs := s.runs - {run}) else s
  }

  function FinishRun(s: State, run: nat, error: Option<string>): State {
    if run !in s.runs || !s.runs[run].Released? then s
    else
      var trace := s.runs[run].trace;
      var t := s.(runs := s.runs - {run});
      if error.Some? then FailLocked(t, trace, error.value)
      else if trace == t.trace && !t.failed then t.(url := Some(trace)) else t
  }

  /** `retry` could not start its thread: the gate is given back, and in a later section the
      trace that is current by then fails. */
  function DropRun(s: State, run: nat): State {
    if run in s.runs && s.runs[run].Begun? then s.(gate := None, runs := s.runs - {run}) else s
  }

  function FailCurrent(s: State, text: string): State {
    if s.started then FailLocked(s, s.trace, text) else s
  }

  function Deliver(s: State, armed: bool): State {
    if s.closed || !s.shown || !s.bound || s.failed || s.url.None? || s.navigating then s
    else
      var t := Arm(s.(url := None, navigating := true));
      if armed then t.(loads := t.loads + [s.url.value]) else t
  }

  /** Navigation raised after the lock was left; `identity` is the trace read inside it. */
  function NavigationFails(s: State, identity: nat, text: string): State {
    if s.started then FailLocked(s, identity, text) else s
  }

  function Show(s: State): State {
    if s.shown || s.closed then s else s.(shown := true, deadline := None)
  }

  function Close(s: State): State {
    s.(closed := true, navigating := false, deadline := None)
  }

  function Expire(s: State, token: nat, text: string): State {
    if s.deadline != Some(token) || token >= |s.armed| then s else FailLocked(s, s.armed[token], text)
  }

  predicate Heard(s: State, identity: nat) {
    s.navigating && identity == s.trace && !s.closed
  }

  function UiReady(s: State, identity: nat): State {
    if Heard(s, identity) then s.(deadline := None, navigating := false) else s
  }

  function UiFailed(s: State, identity: nat, text: string): State {
    if Heard(s, identity) then FailLocked(s, identity, text) else s
  }

  datatype Step =
    | BindStep | ShowStep | CloseStep
    | BeginStep(retry: bool, timer: Option<string>)
    | ReadStep(run: nat) | ReleaseStep(run: nat) | AbortStep(run: nat) | FinishStep(run: nat, error: Option<string>)
    | DropStep(run: nat) | FailCurrentStep(text: string)
    | DeliverStep(armed: bool) | NavigationFailsStep(identity: nat, text: string)
    | ExpireStep(token: nat, text: string) | UiReadyStep(identity: nat) | UiFailedStep(identity: nat, text: string)

  function Next(s: State, step: Step): State {
    match step
    case BindStep => s.(bound := true)
    case ShowStep => Show(s)
    case CloseStep => Close(s)
    case BeginStep(retry, timer) => Begin(s, retry, timer)
    case ReadStep(run) => ReadTrace(s, run)
    case ReleaseStep(run) => ReleaseGate(s, run)
    case AbortStep(run) => AbortRun(s, run)
    case FinishStep(run, error) => FinishRun(s, run, error)
    case DropStep(run) => DropRun(s, run)
    case FailCurrentStep(text) => FailCurrent(s, text)
    case DeliverStep(armed) => Deliver(s, armed)
    case NavigationFailsStep(identity, text) => NavigationFails(s, identity, text)
    case ExpireStep(token, text) => Expire(s, token, text)
    case UiReadyStep(identity) => UiReady(s, identity)
    case UiFailedStep(identity, text) => UiFailed(s, identity, text)
  }

  function Run(s: State, steps: seq<Step>): State
    decreases |steps|
  {
    if steps == [] then s else Run(Next(s, steps[0]), steps[1..])
  }

  // ------------------------------------------------------------- invariant

  ghost predicate Display(s: State) {
    && (s.failed ==> s.url.None? && !s.navigating && s.deadline.None?) && (!s.failed ==> s.message == "")
    && (s.closed ==> !s.navigating && s.deadline.None?)
    && (s.url.Some? ==> s.url.value == s.trace)
    && (s.deadline.Some? ==> s.deadline.value < |s.armed| && s.armed[s.deadline.value] == s.trace)
    && (!s.started ==> s.url.None? && s.deadline.None? && !s.failed && !s.navigating)
  }

  /** A run that still holds the gate works on the current trace, and every run on its own. */
  ghost predicate Gate(s: State) {
    && (s.gate.Some? ==> s.gate.value == s.trace && s.trace in s.runs && !s.runs[s.trace].Released?)
    && (forall r :: r in s.runs ==>
          && (!s.runs[r].Released? ==> s.gate == Some(r))
          && (s.runs[r].Working? || s.runs[r].Released? ==> s.runs[r].trace == r))
  }

  /** Identities are spent one by one: in flight, then as an address, then as a navigation. */
  ghost predicate Identities(s: State) {
    && s.trace < s.nextIdentity
    && (forall r :: r in s.runs ==> r < s.nextIdentity && r !in s.loads && s.url != Some(r))
    && (forall i :: 0 <= i < |s.loads| ==> s.loads[i] < s.nextIdentity)
    && (s.url.Some? ==> s.url.value !in s.loads)
    && (!s.started ==> s.runs == map[] && s.loads == [])
    && (forall i, j :: 0 <= i < j < |s.loads| ==> s.loads[i] != s.loads[j])
  }

  ghost predicate Inv(s: State) {
    Display(s) && Gate(s) && Identities(s)
  }

  lemma FailKeepsInv(s: State, identity: nat, text: string)
    requires Inv(s) && s.started
    ensures Inv(FailLocked(s, identity, text))
  {
  }

  lemma FinishKeepsInv(s: State, run: nat, error: Option<string>)
    requires Inv(s)
    ensures Inv(FinishRun(s, run, error))
  {
    if run in s.runs && s.runs[run].Released? {
      var t := s.(runs := s.runs - {run});
      assert Inv(t);
      if error.Some? { FailKeepsInv(t, s.runs[run].trace, error.value); }
    }
  }

  lemma BeginKeepsInv(s: State, retry: bool, timer: Option<string>)
    requires Inv(s)
    ensures Inv(Begin(s, retry, timer))
  {
    if !(s.closed || (!retry && s.started) || (retry && !s.failed) || s.gate.Some?) {
      var t := Cleared(s, retry);
      assert Inv(t) by { assert t.trace !in s.runs && t.trace !in s.loads; }
      StartRunKeepsInv(t);
      ArmKeepsInv(t);
      StartRunKeepsInv(Arm(t));
      if timer.Some? { FailKeepsInv(Arm(t), t.trace, timer.value); }
    }
  }

  lemma StartRunKeepsInv(t: State)
    requires Inv(t) && t.started && t.gate.None? && t.trace !in t.runs && t.trace !in t.loads && t.url.None?
    ensures Inv(GateTaken(t))
  {
  }

  lemma ArmKeepsInv(t: State)
    requires Inv(t) && t.started && !t.failed && !t.closed
    ensures Inv(Arm(t))
  {
  }

  lemma DeliverKeepsInv(s: State, armed: bool)
    requires Inv(s)
    ensures Inv(Deliver(s, armed))
  {
    if Deliver(s, armed) != s {
      var t := s.(url := None, navigating := true);
      assert Inv(t);
      ArmKeepsInv(t);
      assert s.url.value !in s.runs;
    }
  }

  lemma ReadKeepsInv(s: State, run: nat)
    requires Inv(s)
    ensures Inv(ReadTrace(s, run))
  {
  }

  lemma ReleaseKeepsInv(s: State, run: nat)
    requires Inv(s)
    ensures Inv(ReleaseGate(s, run))
  {
  }

  lemma DropKeepsInv(s: State, run: nat)
    requires Inv(s)
    ensures Inv(DropRun(s, run)) && Inv(AbortRun(s, run))
  {
  }

  lemma NextKeepsInv(s: State, step: Step)
    requires Inv(s)
    ensures Inv(Next(s, step))
  {
    match step {
      case BeginStep(retry, timer) => BeginKeepsInv(s, retry, timer);
      case ReadStep(run) => ReadKeepsInv(s, run);
      case ReleaseStep(run) => ReleaseKeepsInv(s, run);
      case AbortStep(run) => DropKeepsInv(s, run);
      case DropStep(run) => DropKeepsInv(s, run);
      case FinishStep(run, error) => FinishKeepsInv(s, run, error);
      case FailCurrentStep(text) => if s.started { FailKeepsInv(s, s.trace, text); }
      case DeliverStep(armed) => DeliverKeepsInv(s, armed);
      case NavigationFailsStep(identity, text) => if s.started { FailKeepsInv(s, identity, text); }
      case ExpireStep(token, text) => if s.started && token < |s.armed| { FailKeepsInv(s, s.armed[token], text); }
      case UiFailedStep(identity, text) => if s.started { FailKeepsInv(s, identity, text); }
      case _ =>
    }
  }

  lemma {:induction false} RunKeepsInv(s: State, steps: seq<Step>)
    requires Inv(s)
    ensures Inv(Run(s, steps))
    decreases |steps|
  {
    if steps != [] {
      NextKeepsInv(s, steps[0]);
      RunKeepsInv(Next(s, steps[0]), steps[1..]);
    }
  }

  /** In every interleaving: a failed startup shows no address and navigates nowhere, an address always
      belongs to the current identity, and each identity navigates at most once. */
  lemma EveryInterleaving(steps: seq<Step>)
    ensures var s := Run(Start(), steps);
            && (s.failed ==> s.url.None? && !s.navigating)
            && (s.url.Some? ==> s.url.value == s.trace)
            && (forall i, j :: 0 <= i < j < |s.loads| ==> s.loads[i] != s.loads[j])
  {
    RunKeepsInv(Start(), steps);
  }

  /** While any run holds the gate the trace does not move, and the run works on that trace. */
  lemma GateFreezesTrace(steps: seq<Step>, step: Step)
    ensures var s := Run(Start(), steps);
            s.gate.Some? ==> Next(s, step).trace == s.trace == s.gate.value
  {
    RunKeepsInv(Start(), steps);
  }

  /** What the window shows and waits for. */
  datatype Face = Face(
    url: Option<nat>, navigating: bool, failed: bool, message: string, trace: nat, deadline: Option<nat>, loads: seq<nat>)

  function Seen(s: State): Face {
    Face(s.url, s.navigating, s.failed, s.message, s.trace, s.deadline, s.loads)
  }

  /** Results, deadlines and reports of an older startup change nothing the window shows. */
  lemma StaleIsIgnored(s: State, run: nat, error: Option<string>, token: nat, identity: nat, text: string)
    requires Inv(s)
    ensures run != s.trace ==> Seen(FinishRun(s, run, error)) == Seen(s)
    ensures token < |s.armed| && s.armed[token] != s.trace ==> Expire(s, token, text) == s
    ensures s.deadline != Some(token) ==> Expire(s, token, text) == s
    ensures identity != s.trace ==>
      UiReady(s, identity) == s && UiFailed(s, identity, text) == s && NavigationFails(s, identity, text) == s
  {
  }

  lemma TraceAdvances(s: State, step: Step)
    ensures Next(s, step).trace == s.trace || Next(s, step).trace == s.nextIdentity
    ensures Next(s, step).nextIdentity >= s.nextIdentity && (Next(s, step).trace != s.trace ==> Next(s, step).nextIdentity > s.nextIdentity)
  {
    match step {
      case BeginStep(retry, timer) =>
      case FinishStep(run, error) => assert FinishRun(s, run, error).trace == s.trace;
      case DeliverStep(armed) => assert Deliver(s, armed).trace == s.trace;
      case _ => assert Next(s, step).trace == s.trace && Next(s, step).nextIdentity == s.nextIdentity;
    }
  }

  lemma {:induction false} NeverCurrentAgain(s: State, steps: seq<Step>, past: nat)
    requires Inv(s) && past < s.nextIdentity && past != s.trace
    ensures Run(s, steps).trace != past && Inv(Run(s, steps))
    decreases |steps|
  {
    if steps != [] {
      NextKeepsInv(s, steps[0]);
      TraceAdvances(s, steps[0]);
      NeverCurrentAgain(Next(s, steps[0]), steps[1..], past);
    }
  }

  /** A startup that was replaced by a retry stays without effect for the rest of the session. */
  lemma ReplacedForGood(s: State, steps: seq<Step>, past: nat, error: Option<string>, text: string)
    requires Inv(s) && past < s.nextIdentity && past != s.trace
    ensures var t := Run(s, steps);
            && Seen(FinishRun(t, past, error)) == Seen(t)
            && UiReady(t, past) == t && UiFailed(t, past, text) == t && NavigationFails(t, past, text) == t
  {
    NeverCurrentAgain(s, steps, past);
    StaleIsIgnored(Run(s, steps), past, error, 0, past, text);
  }

  // ------------------------------------------------------ nothing waits for ever

  /** A startup that waits for the window to be shown, or for the page to report, has a deadline. */
  ghost predicate Watched(s: State) {
    && (s.navigating ==> s.shown)
    && (s.started && !s.failed && !s.closed && (!s.shown || s.navigating) ==> s.deadline.Some?)
  }

  lemma {:induction false} RunKeepsWatched(s: State, steps: seq<Step>)
    requires Inv(s) && Watched(s)
    ensures Watched(Run(s, steps))
    decreases |steps|
  {
    if steps != [] {
      NextKeepsInv(s, steps[0]);
      NextKeepsWatched(s, steps[0]);
      RunKeepsWatched(Next(s, steps[0]), steps[1..]);
    }
  }

  lemma NextKeepsWatched(s: State, step: Step)
    requires Inv(s) && Watched(s)
    ensures Watched(Next(s, step))
  {
    match step {
      case BeginStep(retry, timer) => BeginKeepsWatched(s, retry, timer);
      case FinishStep(run, error) =>
      case DeliverStep(armed) =>
      case _ =>
    }
  }

  lemma BeginKeepsWatched(s: State, retry: bool, timer: Option<string>)
    requires Inv(s) && Watched(s)
    ensures Watched(Begin(s, retry, timer))
  {
  }

  /** In every interleaving, a startup that waits ends by its deadline if nothing else ends it: the deadline that is
      armed then fails it, with its message. */
  lemma WaitingEnds(steps: seq<Step>, text: string)
    ensures var s := Run(Start(), steps);
            s.started && !s.failed && !s.closed && (!s.shown || s.navigating) ==>
              && s.deadline.Some?
              && var t := Expire(s, s.deadline.value, text);
                 t.failed && t.message == Cut(text) && !t.navigating && t.url.None? && t.deadline.None?
  {
    RunKeepsInv(Start(), steps);
    RunKeepsWatched(Start(), steps);
  }

  // ------------------------------------------------------ what each section does

  /** A failure of the current startup ends it, whatever it was waiting for; nothing but a window that is closed
      or a newer startup keeps it away. */
  lemma FailureIff(s: State, identity: nat, text: string)
    requires Inv(s) && s.started
    ensures var t := FailLocked(s, identity, text);
            if identity == s.trace && !s.closed
            then t == s.(deadline := None, navigating := false, url := None, failed := true, message := t.message)
                 && |t.message| <= 2000 && t.message <= text && (|text| <= 2000 ==> t.message == text)
                 && (|text| > 2000 ==> |t.message| == 2000)
            else t == s
  {
  }

  /** The reports and errors of the current startup are such failures. */
  lemma ReportsFail(s: State, token: nat, identity: nat, text: string)
    requires Inv(s)
    ensures s.deadline == Some(token) ==> Expire(s, token, text) == FailLocked(s, s.trace, text)
    ensures s.navigating && identity == s.trace ==> UiFailed(s, identity, text) == FailLocked(s, s.trace, text)
    ensures !s.navigating ==> UiFailed(s, identity, text) == s && UiReady(s, identity) == s
    ensures s.started && identity == s.trace ==> NavigationFails(s, identity, text) == FailLocked(s, s.trace, text)
    ensures s.trace in s.runs && s.runs[s.trace].Released? ==>
              FinishRun(s, s.trace, Some(text)) == FailLocked(s.(runs := s.runs - {s.trace}), s.trace, text)
  {
  }

  /** The report that the page is ready ends the wait: from then on no deadline, and no late report of the page,
      changes anything until the next startup. */
  lemma ReadyEndsWait(s: State, token: nat, text: string)
    requires Inv(s) && s.navigating
    ensures var t := UiReady(s, s.trace);
            && t == s.(deadline := None, navigating := false)
            && Expire(t, token, text) == t && UiFailed(t, s.trace, text) == t && UiReady(t, s.trace) == t
  {
  }

  /** Exactly when a startup begins: the window is open, it is the first one or follows a failure, no preparation
      is running, and the deadline for showing the window could be armed if it was needed. It shows nothing of
      an earlier one. */
  lemma BeginsIff(s: State, retry: bool, timer: Option<string>)
    requires Inv(s)
    ensures var t := Begin(s, retry, timer);
            var may := !s.closed && (if retry then s.failed else !s.started) && s.gate.None?;
            var id := if retry then s.nextIdentity else s.trace;
            && (!may ==> t == s)
            && (may ==> t.started && t.trace == id && t.url.None? && !t.navigating && t.loads == s.loads
                        && t.shown == s.shown && t.bound == s.bound && !t.closed)
            && (may && (s.shown || timer.None?) ==>
                  && t.gate == Some(id) && t.runs == s.runs[id := Begun] && !t.failed && t.message == ""
                  && (t.deadline.Some? <==> !s.shown) && (!s.shown ==> t.armed == s.armed + [id]))
            && (may && !s.shown && timer.Some? ==>
                  t.gate.None? && t.runs == s.runs && t.failed && t.message == Cut(timer.value))
  {
  }

  /** Exactly when the address is handed to the window; each delivery waits for the page with a new deadline. */
  lemma DeliversIff(s: State, armed: bool)
    requires Inv(s)
    ensures var t := Deliver(s, armed);
            if !s.closed && s.shown && s.bound && !s.failed && s.url.Some? && !s.navigating
            then t == s.(url := None, navigating := true, deadline := t.deadline, armed := s.armed + [s.trace], loads := t.loads)
                 && t.deadline == Some(|s.armed|) && t.loads == s.loads + (if armed then [s.trace] else [])
            else t == s
  {
  }

  /** A shown window no longer waits to be shown; a closed one waits for nothing, and nothing fails it. */
  lemma ShowAndClose(s: State, text: string)
    requires Inv(s)
    ensures var t := Show(s); if s.shown || s.closed then t == s else t == s.(shown := true, deadline := None)
    ensures Close(s) == s.(closed := true, navigating := false, deadline := None)
    ensures FailLocked(Close(s), s.trace, text) == Close(s)
  {
  }

  /** A run gives its gate back exactly once: when it is done, or when its thread could not be started. */
  lemma GateIsGivenBack(s: State, run: nat)
    requires Inv(s) && run in s.runs
    ensures s.runs[run].Begun? ==> DropRun(s, run) == s.(gate := None, runs := s.runs - {run})
    ensures s.runs[run].Begun? ==> ReadTrace(s, run) == s.(runs := s.runs[run := Working(run)])
    ensures s.runs[run].Working? ==> ReleaseGate(s, run) == s.(gate := None, runs := s.runs[run := Released(run)])
    ensures !s.runs[run].Begun? ==> DropRun(s, run) == s && ReadTrace(s, run) == s
    ensures !s.runs[run].Working? ==> ReleaseGate(s, run) == s
    ensures s.runs[run].Released? && (s.failed || run != s.trace) ==> FinishRun(s, run, None) == s.(runs := s.runs - {run})
    ensures s.runs[run].Released? && run == s.trace && !s.failed ==>
              FinishRun(s, run, None) == s.(runs := s.runs - {run}, url := Some(run))
    ensures AbortRun(s, run) == if s.runs[run].Released? && s.closed then s.(runs := s.runs - {run}) else s
  {
  }

  /** Undisturbed, a startup of a shown window gets there: whenever it may begin, its own identity is loaded,
      once, and nothing else. */
  lemma UndisturbedLoads(s: State, retry: bool)
    requires Inv(s) && s.shown && s.bound && !s.closed && s.gate.None? && (if retry then s.failed else !s.started)
    ensures var begun := Begin(s, retry, None);
            var run := begun.trace;
            var t := Deliver(FinishRun(ReleaseGate(ReadTrace(begun, run), run), run, None), true);
            && t.loads == s.loads + [run] && run !in s.loads && t.gate.None? && t.navigating && !t.failed
            && (retry ==> run == s.nextIdentity)
  {
    BeginKeepsInv(s, retry, None);
    var begun := Begin(s, retry, None);
    var read := ReadTrace(begun, begun.trace);
    assert read.runs[begun.trace] == Working(begun.trace);
    var released := ReleaseGate(read, begun.trace);
    assert released.runs[begun.trace] == Released(begun.trace);
  }

  /** The failure of a retry to start its thread is fenced exactly when its own startup is still current, or
      the window is closed, or the current startup has failed already with the same message. */
  lemma SpawnFailureIsFencedIff(s: State, own: nat, text: string)
    requires Inv(s) && s.started
    ensures FailCurrent(s, text) == FailLocked(s, own, text) <==>
            own == s.trace || s.closed || (s.failed && s.message == Cut(text))
  {
  }

  /** One late event is not fenced: when `retry` cannot start its thread it fails whatever startup is
      current by then. Here that is startup 2, although the thread belonged to startup 1. */
  lemma SpawnFailureHitsNewerStartup(text: string)
    ensures exists steps ::
      var s := Run(Start(), steps);
      !s.failed && s.trace == 2 && 2 in s.runs && FailCurrent(s, text).failed
  {
    FirstStartupFails();
    RetryDropsAndExpires();
    var a, b := BeginStep(false, None), FinishStep(0, Some(""));
    var first := [a, ReadStep(0), ReleaseStep(0), b];
    var second := [BeginStep(true, None), DropStep(1), ExpireStep(1, ""), BeginStep(true, None)];
    RunConcat(Start(), first, second);
    assert Run(Start(), first + second) == AfterSecondRetry();
  }

  function AfterFailure(): State {
    State(false, false, false, true, false, true, "", None, 0, 1, None, [0], None, map[], [])
  }

  function AfterSecondRetry(): State {
    State(false, false, false, true, false, false, "", None, 2, 3, Some(2), [0, 1, 2], Some(2), map[2 := Begun], [])
  }

  lemma FirstStartupFails()
    ensures Run(Start(), [BeginStep(false, None), ReadStep(0), ReleaseStep(0), FinishStep(0, Some(""))]) == AfterFailure()
  {
    var a, b, c, d := BeginStep(false, None), ReadStep(0), ReleaseStep(0), FinishStep(0, Some(""));
    var s1 := State(false, false, false, true, false, false, "", None, 0, 1, Some(0), [0], Some(0), map[0 := Begun], []);
    assert Next(Start(), a) == s1;
    var s2 := s1.(runs := map[0 := Working(0)]);
    assert Next(s1, b) == s2;
    var s3 := s2.(gate := None, runs := map[0 := Released(0)]);
    assert Next(s2, c) == s3;
    assert map[0 := Released(0)] - {0} == map[];
    assert Next(s3, d) == AfterFailure();
    assert [a] + [b, c, d] == [a, b, c, d] && [b] + [c, d] == [b, c, d] && [c] + [d] == [c, d] && [d] + [] == [d];
    RunCons(Start(), a, [b, c, d]);
    RunCons(s1, b, [c, d]);
    RunCons(s2, c, [d]);
    RunCons(s3, d, []);
  }

  lemma RetryDropsAndExpires()
    ensures Run(AfterFailure(), [BeginStep(true, None), DropStep(1), ExpireStep(1, ""), BeginStep(true, None)]) == AfterSecondRetry()
  {
    var a, b, c := BeginStep(true, None), DropStep(1), ExpireStep(1, "");
    var s1 := State(false, false, false, true, false, false, "", None, 1, 2, Some(1), [0, 1], Some(1), map[1 := Begun], []);
    assert Next(AfterFailure(), a) == s1;
    assert map[1 := Begun] - {1} == map[];
    var s2 := s1.(gate := None, runs := map[]);
    assert Next(s1, b) == s2;
    var s3 := s2.(failed := true, deadline := None);
    assert Next(s2, c) == s3;
    assert Next(s3, a) == AfterSecondRetry();
    assert [a] + [b, c, a] == [a, b, c, a] && [b] + [c, a] == [b, c, a] && [c] + [a] == [c, a] && [a] + [] == [a];
    RunCons(AfterFailure(), a, [b, c, a]);
    RunCons(s1, b, [c, a]);
    RunCons(s2, c, [a]);
    RunCons(s3, a, []);
  }

  lemma {:induction false} RunConcat(s: State, first: seq<Step>, second: seq<Step>)
    ensures Run(s, first + second) == Run(Run(s, first), second)
    decreases |first|
  {
    if first == [] {
      assert first + second == second;
    } else {
      assert (first + second)[1..] == first[1..] + second;
      RunConcat(Next(s, first[0]), first[1..], second);
    }
  }

  lemma RunCons(s: State, step: Step, rest: seq<Step>)
    ensures Run(s, [step] + rest) == Run(Next(s, step), rest)
  {
    assert ([step] + rest)[1..] == rest;
  }

  // --------------------------------------------------------------- object

  class Startup {
    var closed: bool
    var shown: bool
    var bound: bool
    var started: bool
    var navigating: bool
    var failed: bool
    var message: string
    var url: Option<nat>
    var trace: nat
    var nextIdentity: nat
    var deadline: Option<nat>
    var armed: seq<nat>
    var gate: Option<nat>
    var runs: map<nat, Phase>
    ghost var loads: seq<nat>

    ghost function View(): State
      reads this
    {
      State(closed, shown, bound, started, navigating, failed, message, url, trace, nextIdentity, deadline, armed, gate, runs, loads)
    }

    constructor ()
      ensures View() == Start()
    {
      closed, shown, bound, started, navigating, failed := false, false, false, false, false, false;
      message, url, trace, nextIdentity, deadline, armed := "", None, 0, 1, None, [];
      gate, runs, loads := None, map[], [];
    }

    method ArmDeadline()
      modifies this`deadline, this`armed
      ensures View() == Arm(old(View()))
    {
      deadline := Some(|armed|);
      armed := armed + [trace];
    }

    method Fail(identity: nat, text: string)
      modifies this`deadline, this`navigating, this`url, this`failed, this`message
      ensures View() == FailLocked(old(View()), identity, text)
    {
      if identity != trace || closed { return; }
      deadline := None;
      navigating := false;
      url := None;
      failed := true;
      message := Cut(text);
    }

    /** `_begin`; `timer` is the error of a deadline thread that could not be started. */
    method BeginRun(retry: bool, timer: Option<string>) returns (ok: bool)
      modifies this
      ensures View() == Begin(old(View()), retry, timer)
      ensures ok <==> gate.Some? && old(gate) == None
    {
      if closed || (!retry && started) || (retry && !failed) || gate.Some? { return false; }
      Clear(retry);
      if !shown {
        ArmDeadline();
        if timer.Some? {
          Fail(trace, timer.value);
          return false;
        }
      }
      gate := Some(trace);
      runs := runs[trace := Begun];
      return true;
    }

    method Clear(retry: bool)
      modifies this`started, this`trace, this`nextIdentity, this`failed, this`message, this`url, this`navigating
      ensures View() == Cleared(old(View()), retry)
    {
      started := true;
      if retry {
        trace := nextIdentity;
        nextIdentity := nextIdentity + 1;
      }
      ClearDisplay();
    }

    method ClearDisplay()
      modifies this`failed, this`message, this`url, this`navigating
      ensures View() == old(View()).(failed := false, message := "", url := None, navigating := false)
    {
      failed, message, url, navigating := false, "", None, false;
    }

    method EndRun(run: nat, error: Option<string>)
      modifies this
      ensures View() == FinishRun(old(View()), run, error)
    {
      if run !in runs || !runs[run].Released? { return; }
      var mine := runs[run].trace;
      runs := runs - {run};
      if error.Some? {
        Fail(mine, error.value);
      } else if mine == trace && !failed {
        url := Some(mine);
      }
    }

    method DeliverPage(timerStarts: bool)
      modifies this
      ensures View() == Deliver(old(View()), timerStarts)
    {
      if closed || !shown || !bound { return; }
      if failed || url.None? || navigating { return; }
      var address := url.value;
      url := None;
      navigating := true;
      ArmDeadline();
      if timerStarts { loads := loads + [address]; }
    }

    method ExpireDeadline(token: nat, text: string)
      modifies this
      ensures View() == Expire(old(View()), token, text)
    {
      if deadline != Some(token) || token >= |armed| { return; }
      Fail(armed[token], text);
    }

    method ReportReady(identity: nat)
      modifies this`deadline, this`navigating
      ensures View() == UiReady(old(View()), identity)
    {
      if !navigating || identity != trace || closed { return; }
      deadline := None;
      navigating := false;
    }

    method ReportFailed(identity: nat, text: string)
      modifies this
      ensures View() == UiFailed(old(View()), identity, text)
    {
      if !navigating || identity != trace || closed { return; }
      Fail(identity, text);
    }
  }
}
