/**
 * External control of conversations: delegation generations fence automation
 * off after a pause or takeover, an admission budget bounds each generation,
 * and request ids make every command repeatable.
 *
 * Every function here is one durable control-line section. The durable log is a
 * value: configuration entries per conversation, one receipt per request id, and
 * the admitted tasks in order, of which the input queue is a projection. Fingerprints are
 * the fingerprinted content itself.
 */
module Control {

  import opened Collections
  import Text

  /** `create_conversation` derives its id from actor and request id; other ids come from the UI. */
  datatype ConversationId = Made(actor: string, requestId: string) | Named(name: string)

  datatype Actor = Actor(id: string, operator: bool)

  datatype Mode = Delegated | Manual | Paused

  datatype Config = Config(
    mode: Mode, controller: string, createdBy: string, generation: nat, expiresAt: int, maxRevisions: nat)

  datatype Command =
    | Create(revisions: int, seconds: int)
    | Grant(expected: nat, revisions: int, seconds: int)
    | Pause(expected: nat)
    | Send(expected: nat, text: string)
    | Takeover
    | ImportUi

  datatype Result = Settings(config: Config) | Admitted(run: nat)

  datatype Receipt = Receipt(actor: string, command: Command, result: Result)

  /** The delegation a controlled task was admitted under. */
  datatype Lease = Lease(actor: string, operator: bool, generation: nat, requestId: string, command: Command)

  datatype Task = Task(conversation: ConversationId, lease: Option<Lease>, terminal: bool, cancelRequested: bool)

  datatype State = State(
    configs: map<ConversationId, seq<Config>>,
    receipts: map<(ConversationId, string), Receipt>,
    tasks: seq<Task>,
    draining: bool)

  datatype Outcome = Ok(result: Result) | Refused(code: string)

  /** What the durable line cannot decide: the clock, the checks of collaborators, and whether the service
      stops between the commits of a command; `Some(n)` is a stop after `n` tasks were considered for
      cancellation, where the command cancels. */
  datatype Env = Env(now: int, accepted: bool, crash: Option<nat>)

  const CONTROLLER := "codex"

  function Latest(s: State, c: ConversationId): Option<Config> {
    if c in s.configs && s.configs[c] != [] then Some(s.configs[c][|s.configs[c]| - 1]) else None
  }

  function Generation(s: State, c: ConversationId): nat {
    match Latest(s, c) case None => 0 case Some(k) => k.generation
  }

  /** `control.write` of a receipt, and of a configuration entry in the same commit. */
  function Written(s: State, c: ConversationId, requestId: string, receipt: Receipt, config: Option<Config>): State {
    var entries := if c in s.configs then s.configs[c] else [];
    s.(receipts := s.receipts[(c, requestId) := receipt],
       configs := if config.None? then s.configs else s.configs[c := entries + [config.value]])
  }

  predicate Owned(t: Task, c: ConversationId, generation: nat) {
    t.conversation == c && t.lease.Some? && t.lease.value.generation < generation
  }

  function Cancelled(t: Task): Task {
    if t.terminal then t else t.(cancelRequested := true)
  }

  /** `_cancel_owned`, one commit per task; a stop leaves the tasks from `n` on as they were. */
  function CancelOwned(s: State, c: ConversationId, generation: nat, n: nat): State {
    s.(tasks := seq(|s.tasks|, r requires 0 <= r < |s.tasks| =>
         if r < n && Owned(s.tasks[r], c, generation) then Cancelled(s.tasks[r]) else s.tasks[r]))
  }

  function Considered(s: State, crash: Option<nat>): nat {
    match crash case None => |s.tasks| case Some(n) => n
  }

  // -------------------------------------------------------------- commands

  function Execute(s: State, actor: Actor, target: ConversationId, requestId: string, command: Command, env: Env): (State, Outcome) {
    var c := if command.Create? then Made(actor.id, requestId) else target;
    if command.Takeover? || command.ImportUi? then (s, Refused("INVALID_ARGUMENT"))
    else if command.Grant? && !actor.operator then (s, Refused("FORBIDDEN"))
    else if (c, requestId) in s.receipts then
      var prior := s.receipts[(c, requestId)];
      if prior.actor != actor.id || prior.command != command then (s, Refused("REQUEST_CONFLICT"))
      else if command.Pause? && prior.result.Settings? then
        (CancelOwned(s, c, prior.result.config.generation, Considered(s, env.crash)),
         if env.crash.Some? then Refused("CRASH") else Ok(prior.result))
      else (s, Ok(prior.result))
    else if command.Create? then CreateConversation(s, actor, c, requestId, command, env)
    else match Latest(s, c)
      case None => (s, Refused("NOT_FOUND"))
      case Some(k) =>
        if !actor.operator && actor.id !in {k.createdBy, k.controller} then (s, Refused("FORBIDDEN"))
        else if command.Send? then SendMessage(s, actor, c, requestId, command, k, env)
        else if !Guard(actor, k, command.expected) then (s, Refused(GuardError(k, command.expected)))
        else if command.Grant? then GrantControl(s, actor, c, requestId, command, k, env)
        else PauseControl(s, actor, c, requestId, command, k, env)
  }

  predicate Guard(actor: Actor, k: Config, expected: nat) {
    expected == k.generation && (actor.operator || (k.mode == Delegated && k.controller == actor.id))
  }

  function GuardError(k: Config, expected: nat): string {
    if expected != k.generation then "STALE_CONTROL" else "FORBIDDEN"
  }

  predicate Bounded(revisions: int, seconds: int) {
    0 <= revisions <= 20 && 1 <= seconds <= 86_400
  }

  function CreateConversation(s: State, actor: Actor, c: ConversationId, requestId: string, command: Command, env: Env): (State, Outcome)
    requires command.Create?
  {
    if !env.accepted || !Bounded(command.revisions, command.seconds) then (s, Refused("INVALID_ARGUMENT"))
    else
      var k := Config(Delegated, CONTROLLER, actor.id, 1, env.now + command.seconds, command.revisions);
      (Written(s, c, requestId, Receipt(actor.id, command, Settings(k)), Some(k)), Ok(Settings(k)))
  }

  function GrantControl(s: State, actor: Actor, c: ConversationId, requestId: string, command: Command, k: Config, env: Env): (State, Outcome)
    requires command.Grant?
  {
    if !Bounded(command.revisions, command.seconds) then (s, Refused("INVALID_ARGUMENT"))
    else
      var next := k.(mode := Delegated, controller := CONTROLLER, generation := k.generation + 1,
                     expiresAt := env.now + command.seconds, maxRevisions := command.revisions);
      (Written(s, c, requestId, Receipt(actor.id, command, Settings(next)), Some(next)), Ok(Settings(next)))
  }

  /** The new generation is durable before any cancellation; a crash in between leaves the receipt. */
  function PauseControl(s: State, actor: Actor, c: ConversationId, requestId: string, command: Command, k: Config, env: Env): (State, Outcome) {
    var next := k.(mode := Paused, generation := k.generation + 1);
    var barrier := Written(s, c, requestId, Receipt(actor.id, command, Settings(next)), Some(next));
    (CancelOwned(barrier, c, next.generation, Considered(s, env.crash)),
     if env.crash.Some? then Refused("CRASH") else Ok(Settings(next)))
  }

  predicate IsItem(t: Task, c: ConversationId, requestId: string) {
    t.conversation == c && t.lease.Some? && t.lease.value.requestId == requestId
  }

  /** `input_queue.get`: the first admitted task that carries the request's identity. */
  function FindItem(tasks: seq<Task>, c: ConversationId, requestId: string): (r: Option<nat>)
    ensures r.Some? ==> r.value < |tasks| && IsItem(tasks[r.value], c, requestId)
    ensures r.None? ==> forall i :: 0 <= i < |tasks| ==> !IsItem(tasks[i], c, requestId)
  {
    if tasks == [] then None
    else
      var n := |tasks| - 1;
      match FindItem(tasks[..n], c, requestId)
      case Some(i) => Some(i)
      case None => if IsItem(tasks[n], c, requestId) then Some(n) else None
  }

  function InGeneration(s: State, c: ConversationId, generation: nat): set<nat> {
    set r | 0 <= r < |s.tasks| && s.tasks[r].conversation == c && s.tasks[r].lease.Some? && s.tasks[r].lease.value.generation == generation
  }

  function SendMessage(s: State, actor: Actor, c: ConversationId, requestId: string, command: Command, k: Config, env: Env): (State, Outcome)
    requires command.Send?
  {
    var item := FindItem(s.tasks, c, requestId);
    if item.Some? then
      var lease := s.tasks[item.value].lease.value;
      if lease.actor != actor.id || lease.command != command then (s, Refused("REQUEST_CONFLICT"))
      else Receipted(s, actor, c, requestId, command, item.value, env)
    else if !Guard(actor, k, command.expected) then (s, Refused(GuardError(k, command.expected)))
    else if s.draining then (s, Refused("SERVER_DRAINING"))
    else if !actor.operator && env.now >= k.expiresAt then (s, Refused("BUDGET_EXHAUSTED"))
    else if !actor.operator && |InGeneration(s, c, k.generation)| >= 1 + k.maxRevisions then (s, Refused("BUDGET_EXHAUSTED"))
    else if !env.accepted then (s, Refused("INVALID_ARGUMENT"))
    else
      var lease := Lease(actor.id, actor.operator, k.generation, requestId, command);
      Receipted(Admit(s, Task(c, Some(lease), false, false)), actor, c, requestId, command, |s.tasks|, env)
  }

  /** The receipt is a second commit; a crash can come before it. */
  function Receipted(s: State, actor: Actor, c: ConversationId, requestId: string, command: Command, run: nat, env: Env): (State, Outcome) {
    if env.crash.Some? then (s, Refused("CRASH"))
    else (Written(s, c, requestId, Receipt(actor.id, command, Admitted(run)), None), Ok(Admitted(run)))
  }

  function Admit(s: State, t: Task): State {
    s.(tasks := s.tasks + [t])
  }

  // ----------------------------------------------------- UI and scheduler

  function TakeoverId(generation: nat): string {
    "takeover_" + Text.Decimal(generation)
  }

  /** A real UI action. The log refuses the write when the request id already names other content. */
  function TakeoverUi(s: State, c: ConversationId, paused: bool, crash: Option<nat>): (State, Outcome) {
    match Latest(s, c)
    case None => (s, Refused("NOT_FOUND"))
    case Some(k) =>
      if k.mode != Delegated then (s, Ok(Settings(k)))
      else
        var next := k.(mode := if paused then Paused else Manual, generation := k.generation + 1);
        if (c, TakeoverId(next.generation)) in s.receipts then (s, Refused("COMMIT_CONFLICT"))
        else
          var barrier := Written(s, c, TakeoverId(next.generation), Receipt("user", Takeover, Settings(next)), Some(next));
          (CancelOwned(barrier, c, next.generation, Considered(s, crash)),
           if crash.Some? then Refused("CRASH") else Ok(Settings(next)))
  }

  /** Adopts a UI session that has no configuration yet. */
  function AdoptUi(s: State, c: ConversationId): State {
    if Latest(s, c).Some? || (c, "import-ui") in s.receipts then s
    else Written(s, c, "import-ui", Receipt("user", ImportUi, Settings(Imported())), Some(Imported()))
  }

  function Imported(): Config {
    Config(Manual, "", "user", 0, 0, 3)
  }

  function PermitsDispatch(s: State, run: nat, now: int): (r: (State, bool))
    requires run < |s.tasks|
  {
    var t := s.tasks[run];
    if s.draining then (s, false)
    else if t.lease.None? then (s, true)
    else
      var latest := Latest(s, t.conversation);
      if latest.Some? && latest.value.mode == Delegated && latest.value.generation == t.lease.value.generation
         && now < latest.value.expiresAt
      then (s, true)
      else (s.(tasks := s.tasks[run := Cancelled(t)]), false)
  }

  datatype Action =
    | Do(actor: Actor, target: ConversationId, requestId: string, command: Command, env: Env)
    | UiTakeover(conversation: ConversationId, paused: bool, crash: Option<nat>)
    | UiImport(conversation: ConversationId)
    | UiTask(conversation: ConversationId)
    | Dispatch(run: nat, now: int)
    | Finish(run: nat)
    | Drain
    | Activate

  function Next(s: State, a: Action): State {
    match a
    case Do(actor, c, requestId, command, env) => Execute(s, actor, c, requestId, command, env).0
    case UiTakeover(c, paused, crash) => TakeoverUi(s, c, paused, crash).0
    case UiImport(c) => AdoptUi(s, c)
    case UiTask(c) => Admit(s, Task(c, None, false, false))
    case Dispatch(run, now) => if run < |s.tasks| then PermitsDispatch(s, run, now).0 else s
    case Finish(run) => if run < |s.tasks| then s.(tasks := s.tasks[run := s.tasks[run].(terminal := true)]) else s
    case Drain => s.(draining := true)
    case Activate => s.(draining := false)
  }

  function Run(s: State, actions: seq<Action>): State
    decreases |actions|
  {
    if actions == [] then s else Run(Next(s, actions[0]), actions[1..])
  }

  // ------------------------------------------------------------- invariant

  /** Configuration generations strictly increase along each conversation's log. */
  ghost predicate Increasing(s: State) {
    forall c, i, j :: c in s.configs && 0 <= i < j < |s.configs[c]| ==> s.configs[c][i].generation < s.configs[c][j].generation
  }

  /** No task runs ahead of its conversation's generation. */
  ghost predicate Bounds(s: State) {
    forall r :: 0 <= r < |s.tasks| && s.tasks[r].lease.Some? ==>
      Latest(s, s.tasks[r].conversation).Some? && s.tasks[r].lease.value.generation <= Generation(s, s.tasks[r].conversation)
  }

  /** At most one task per conversation and request id. */
  ghost predicate OnePerRequest(s: State) {
    forall q, r :: 0 <= q < r < |s.tasks| ==> !SameRequest(s.tasks[q], s.tasks[r])
  }

  predicate SameRequest(t: Task, u: Task) {
    && t.lease.Some? && u.lease.Some? && t.conversation == u.conversation
    && t.lease.value.requestId == u.lease.value.requestId
  }

  /** A send receipt names the task of its own request. */
  ghost predicate SendReceipts(s: State) {
    forall c, id :: (c, id) in s.receipts && s.receipts[(c, id)].command.Send? ==>
      var r := s.receipts[(c, id)];
      r.result.Admitted? && r.result.run < |s.tasks| && IsItem(s.tasks[r.result.run], c, id)
      && s.tasks[r.result.run].lease.value.actor == r.actor && s.tasks[r.result.run].lease.value.command == r.command
  }

  /** A pause receipt reports the configuration it wrote. */
  ghost predicate PauseReceipts(s: State) {
    forall key :: key in s.receipts && s.receipts[key].command.Pause? ==> s.receipts[key].result.Settings?
  }

  function ByOthers(s: State, c: ConversationId, generation: nat): set<nat> {
    set r | r in InGeneration(s, c, generation) && !s.tasks[r].lease.value.operator
  }

  /** Delegated admissions of every generation respect that generation's budget. */
  ghost predicate WithinBudget(s: State) {
    forall c, i :: c in s.configs && 0 <= i < |s.configs[c]| ==>
      |ByOthers(s, c, s.configs[c][i].generation)| <= 1 + s.configs[c][i].maxRevisions
  }

  /** One task per request, and receipts that name it. */
  ghost predicate Requests(s: State) {
    OnePerRequest(s) && SendReceipts(s) && PauseReceipts(s)
  }

  /** Generations increase along each log, no task is ahead of its conversation, and budgets are kept. */
  ghost predicate Terms(s: State) {
    Increasing(s) && Bounds(s) && WithinBudget(s)
  }

  ghost predicate Good(s: State) {
    Requests(s) && Terms(s)
  }

  // ---------------------------------------------------------------- commits

  /** What one durable commit does: write a configuration entry with its receipt, write the receipt of a
      send, admit a task, or change flags. */
  datatype Commit =
    | Configure(c: ConversationId, id: string, receipt: Receipt, config: Config)
    | Answer(c: ConversationId, id: string, receipt: Receipt)
    | Place(task: Task)
    | Mark(tasks: seq<Task>, draining: bool)

  function Apply(s: State, m: Commit): State {
    match m
    case Configure(c, id, receipt, k) => Written(s, c, id, receipt, Some(k))
    case Answer(c, id, receipt) => Written(s, c, id, receipt, None)
    case Place(t) => Admit(s, t)
    case Mark(tasks, draining) => s.(tasks := tasks, draining := draining)
  }

  /** Cancelled for good: the task has ended or its cancellation is durable. */
  predicate Dead(t: Task) {
    t.terminal || t.cancelRequested
  }

  /** Only cancellation and terminal flags differ, and none is taken back. */
  ghost predicate SameButFlags(before: seq<Task>, tasks: seq<Task>) {
    && |tasks| == |before|
    && (forall r :: 0 <= r < |before| ==>
          && tasks[r].conversation == before[r].conversation && tasks[r].lease == before[r].lease
          && (Dead(before[r]) ==> Dead(tasks[r])))
  }

  /** A commit as the commands make it. A receipt is written once. An entry goes up by at least one, except that
      a creation writes generation 1 over whatever is there. */
  ghost predicate Sound(s: State, m: Commit) {
    match m
    case Configure(c, id, receipt, k) =>
      && (c, id) !in s.receipts && !receipt.command.Send? && receipt.result == Settings(k)
      && (Latest(s, c).Some? ==> k.generation > Generation(s, c) || k.generation == 1)
    case Answer(c, id, receipt) =>
      && (c, id) !in s.receipts && receipt.command.Send?
      && receipt.result.Admitted? && receipt.result.run < |s.tasks| && IsItem(s.tasks[receipt.result.run], c, id)
      && s.tasks[receipt.result.run].lease.value.actor == receipt.actor
      && s.tasks[receipt.result.run].lease.value.command == receipt.command
    case Place(t) => t.lease.Some? ==> Admissible(s, t.conversation, t.lease.value)
    case Mark(tasks, draining) => SameButFlags(s.tasks, tasks)
  }

  ghost predicate Admissible(s: State, c: ConversationId, lease: Lease) {
    && !s.draining && Latest(s, c).Some? && lease.generation == Generation(s, c)
    && FindItem(s.tasks, c, lease.requestId).None?
    && (lease.operator || |InGeneration(s, c, lease.generation)| < 1 + Latest(s, c).value.maxRevisions)
  }

  /** The entry does not go up. */
  ghost predicate Rewrites(s: State, m: Commit) {
    m.Configure? && Latest(s, m.c).Some? && m.config.generation <= Generation(s, m.c)
  }

  /** The one command that writes such an entry: creating a conversation that is already configured, past
      generation 0, and whose creation has no receipt. */
  predicate Recreates(s: State, a: Action, c: ConversationId) {
    && a.Do? && a.command.Create? && c == Made(a.actor.id, a.requestId)
    && (c, a.requestId) !in s.receipts && a.env.accepted && Bounded(a.command.revisions, a.command.seconds)
    && Latest(s, c).Some? && Generation(s, c) >= 1
  }

  function Still(s: State): Commit {
    Mark(s.tasks, s.draining)
  }

  lemma CancelCommit(s: State, c: ConversationId, generation: nat, n: nat)
    ensures var m := Mark(CancelOwned(s, c, generation, n).tasks, s.draining);
            Sound(s, m) && Apply(s, m) == CancelOwned(s, c, generation, n)
  {
  }

  lemma SendCommits(s: State, actor: Actor, c: ConversationId, requestId: string, command: Command, k: Config, env: Env)
    returns (m: Commit, n: Commit)
    requires command.Send? && Latest(s, c) == Some(k) && (c, requestId) !in s.receipts
    ensures Sound(s, m) && Sound(Apply(s, m), n) && !m.Configure? && !n.Configure?
    ensures SendMessage(s, actor, c, requestId, command, k, env).0 == Apply(Apply(s, m), n)
  {
    var t := SendMessage(s, actor, c, requestId, command, k, env).0;
    var item := FindItem(s.tasks, c, requestId);
    m, n := Still(s), Still(s);
    if t != s {
      if item.Some? {
        m := Answer(c, requestId, Receipt(actor.id, command, Admitted(item.value)));
        n := Still(Apply(s, m));
      } else {
        m := Place(Task(c, Some(Lease(actor.id, actor.operator, k.generation, requestId, command)), false, false));
        var u := Apply(s, m);
        n := if env.crash.Some? then Still(u) else Answer(c, requestId, Receipt(actor.id, command, Admitted(|s.tasks|)));
      }
    }
  }

  /** A pause or a takeover: the barrier, then the cancellations. */
  lemma BarrierCommits(s: State, c: ConversationId, id: string, receipt: Receipt, next: Config, reached: nat)
    returns (m: Commit, n: Commit)
    requires (c, id) !in s.receipts && !receipt.command.Send?
    requires receipt.result == Settings(next) && next.generation > Generation(s, c)
    ensures Sound(s, m) && Sound(Apply(s, m), n) && !Rewrites(s, m) && !n.Configure?
    ensures CancelOwned(Written(s, c, id, receipt, Some(next)), c, next.generation, reached) == Apply(Apply(s, m), n)
  {
    m := Configure(c, id, receipt, next);
    var barrier := Apply(s, m);
    CancelCommit(barrier, c, next.generation, reached);
    n := Mark(CancelOwned(barrier, c, next.generation, reached).tasks, s.draining);
  }

  lemma MutationCommits(s: State, actor: Actor, c: ConversationId, requestId: string, command: Command, k: Config, env: Env)
    returns (m: Commit, n: Commit)
    requires (command.Send? || command.Grant? || command.Pause?) && (command.Grant? ==> actor.operator)
    requires (c, requestId) !in s.receipts && Latest(s, c) == Some(k)
    ensures Sound(s, m) && Sound(Apply(s, m), n) && !Rewrites(s, m) && !n.Configure?
    ensures Execute(s, actor, c, requestId, command, env).0 == Apply(Apply(s, m), n)
  {
    var t := Execute(s, actor, c, requestId, command, env).0;
    m, n := Still(s), Still(s);
    if t != s {
      if command.Send? {
        m, n := SendCommits(s, actor, c, requestId, command, k, env);
      } else if command.Grant? {
        var next := GrantControl(s, actor, c, requestId, command, k, env).1.result.config;
        m := Configure(c, requestId, Receipt(actor.id, command, Settings(next)), next);
        n := Still(Apply(s, m));
      } else {
        var next := k.(mode := Paused, generation := k.generation + 1);
        m, n := BarrierCommits(s, c, requestId, Receipt(actor.id, command, Settings(next)), next, Considered(s, env.crash));
      }
    }
  }

  lemma CommandCommits(s: State, actor: Actor, target: ConversationId, requestId: string, command: Command, env: Env)
    returns (m: Commit, n: Commit)
    ensures Sound(s, m) && Sound(Apply(s, m), n) && !n.Configure?
    ensures Execute(s, actor, target, requestId, command, env).0 == Apply(Apply(s, m), n)
    ensures Rewrites(s, m) ==> Recreates(s, Do(actor, target, requestId, command, env), m.c)
    ensures forall c :: Recreates(s, Do(actor, target, requestId, command, env), c) ==> Rewrites(s, m) && m.c == c && m.config.generation == 1
  {
    var c := if command.Create? then Made(actor.id, requestId) else target;
    m, n := Still(s), Still(s);
    if command.Takeover? || command.ImportUi? || (command.Grant? && !actor.operator) {
    } else if (c, requestId) in s.receipts {
      var prior := s.receipts[(c, requestId)];
      if prior.actor == actor.id && prior.command == command && command.Pause? && prior.result.Settings? {
        CancelCommit(s, c, prior.result.config.generation, Considered(s, env.crash));
        m := Mark(CancelOwned(s, c, prior.result.config.generation, Considered(s, env.crash)).tasks, s.draining);
        n := Still(Apply(s, m));
      }
    } else if command.Create? {
      var made := CreateConversation(s, actor, c, requestId, command, env);
      if made.1.Ok? {
        m := Configure(c, requestId, Receipt(actor.id, command, made.1.result), made.1.result.config);
        n := Still(Apply(s, m));
      }
    } else if Latest(s, c).Some? {
      m, n := MutationCommits(s, actor, c, requestId, command, Latest(s, c).value, env);
    }
  }

  lemma TakeoverCommits(s: State, c: ConversationId, paused: bool, crash: Option<nat>) returns (m: Commit, n: Commit)
    ensures Sound(s, m) && Sound(Apply(s, m), n) && !Rewrites(s, m) && !n.Configure?
    ensures TakeoverUi(s, c, paused, crash).0 == Apply(Apply(s, m), n)
  {
    m, n := Still(s), Still(s);
    if TakeoverUi(s, c, paused, crash).0 != s {
      var k := Latest(s, c).value;
      var next := k.(mode := if paused then Paused else Manual, generation := k.generation + 1);
      m, n := BarrierCommits(s, c, TakeoverId(next.generation), Receipt("user", Takeover, Settings(next)), next, Considered(s, crash));
    }
  }

  /** Every action is at most two commits, the second not a configuration entry; the first rewrites exactly
      when the action recreates. */
  lemma Commits(s: State, a: Action) returns (m: Commit, n: Commit)
    ensures Sound(s, m) && Sound(Apply(s, m), n) && !n.Configure? && Next(s, a) == Apply(Apply(s, m), n)
    ensures Rewrites(s, m) ==> Recreates(s, a, m.c)
    ensures forall c :: Recreates(s, a, c) ==> Rewrites(s, m) && m.c == c && m.config.generation == 1
  {
    match a {
      case Do(actor, target, requestId, command, env) => m, n := CommandCommits(s, actor, target, requestId, command, env);
      case UiTakeover(c, paused, crash) => m, n := TakeoverCommits(s, c, paused, crash);
      case UiImport(c) =>
        m := if AdoptUi(s, c) == s then Still(s)
             else Configure(c, "import-ui", Receipt("user", ImportUi, Settings(Imported())), Imported());
        n := Still(Apply(s, m));
      case UiTask(c) =>
        m := Place(Task(c, None, false, false));
        n := Still(Apply(s, m));
      case _ =>
        m := Still(Next(s, a));
        n := m;
    }
  }

  // ------------------------------------------------------------- requests

  lemma CommitKeepsRequests(s: State, m: Commit)
    requires Requests(s) && Sound(s, m)
    ensures Requests(Apply(s, m))
  {
    match m {
      case Configure(c, id, receipt, k) =>
      case Answer(c, id, receipt) =>
      case Place(t) => if t.lease.Some? { PlaceKeepsRequests(s, t); }
      case Mark(tasks, _) => MarkKeepsRequests(s, m);
    }
  }

  lemma PlaceKeepsRequests(s: State, t: Task)
    requires Requests(s) && t.lease.Some? && Admissible(s, t.conversation, t.lease.value)
    ensures Requests(Admit(s, t))
  {
    assert forall q :: 0 <= q < |s.tasks| ==> !SameRequest(s.tasks[q], t);
  }

  lemma MarkKeepsRequests(s: State, m: Commit)
    requires Requests(s) && m.Mark? && Sound(s, m)
    ensures Requests(Apply(s, m))
  {
    forall q, r | 0 <= q < r < |m.tasks| ensures !SameRequest(m.tasks[q], m.tasks[r]) {
      assert !SameRequest(s.tasks[q], s.tasks[r]);
    }
  }

  lemma NextKeepsRequests(s: State, a: Action)
    requires Requests(s)
    ensures Requests(Next(s, a))
  {
    var m, n := Commits(s, a);
    CommitKeepsRequests(s, m);
    CommitKeepsRequests(Apply(s, m), n);
  }

  /** Whatever happens, and whatever ids are imported: at most one task per conversation and request id,
      and every receipt of a send names that task. */
  lemma {:induction false} RunKeepsRequests(s: State, actions: seq<Action>)
    requires Requests(s)
    ensures Requests(Run(s, actions))
    decreases |actions|
  {
    if actions != [] {
      NextKeepsRequests(s, actions[0]);
      RunKeepsRequests(Next(s, actions[0]), actions[1..]);
    }
  }

  // ---------------------------------------------------------------- terms

  lemma ByOthersAfterAdmit(s: State, t: Task, c: ConversationId, g: nat)
    ensures var more := t.conversation == c && t.lease.Some? && t.lease.value.generation == g && !t.lease.value.operator;
            ByOthers(Admit(s, t), c, g) == ByOthers(s, c, g) + if more then {|s.tasks|} else {}
  {
  }

  lemma LatestIsUnique(s: State, c: ConversationId, k: Config, i: nat)
    requires Increasing(s) && Latest(s, c) == Some(k) && i < |s.configs[c]| && s.configs[c][i].generation == k.generation
    ensures s.configs[c][i] == k
  {
  }

  /** An admission that passed the budget check keeps every generation within its budget. */
  lemma AdmitBudget(s: State, c: ConversationId, lease: Lease)
    requires WithinBudget(s) && Increasing(s) && Admissible(s, c, lease)
    ensures WithinBudget(Admit(s, Task(c, Some(lease), false, false)))
  {
    var k := Latest(s, c).value;
    var t := Admit(s, Task(c, Some(lease), false, false));
    SubsetSize(ByOthers(s, c, k.generation), InGeneration(s, c, k.generation));
    forall d, i | d in t.configs && 0 <= i < |t.configs[d]|
      ensures |ByOthers(t, d, t.configs[d][i].generation)| <= 1 + t.configs[d][i].maxRevisions
    {
      var g := t.configs[d][i].generation;
      ByOthersAfterAdmit(s, Task(c, Some(lease), false, false), d, g);
      if d == c && g == k.generation {
        LatestIsUnique(s, c, k, i);
      }
    }
  }

  lemma PlaceKeepsTerms(s: State, t: Task)
    requires Terms(s) && Sound(s, Place(t))
    ensures Terms(Admit(s, t))
  {
    var u := Admit(s, t);
    assert forall d :: Latest(u, d) == Latest(s, d);
    if t.lease.Some? {
      AdmitBudget(s, t.conversation, t.lease.value);
      var plain := Admit(s, Task(t.conversation, t.lease, false, false));
      forall d, g ensures ByOthers(u, d, g) == ByOthers(plain, d, g) {}
    } else {
      forall d, g ensures ByOthers(u, d, g) == ByOthers(s, d, g) {}
    }
  }

  lemma ConfigKeepsTerms(s: State, c: ConversationId, id: string, receipt: Receipt, k: Config)
    requires Terms(s) && (Latest(s, c).Some? ==> k.generation > Generation(s, c))
    ensures Terms(Written(s, c, id, receipt, Some(k)))
  {
    ConfigBudget(s, c, id, receipt, k);
    ConfigBounds(s, c, id, receipt, k);
    ConfigIncreasing(s, c, id, receipt, k);
  }

  lemma ConfigBounds(s: State, c: ConversationId, id: string, receipt: Receipt, k: Config)
    requires Bounds(s) && (Latest(s, c).Some? ==> k.generation > Generation(s, c))
    ensures Bounds(Written(s, c, id, receipt, Some(k)))
  {
    var t := Written(s, c, id, receipt, Some(k));
    assert forall d :: d != c ==> Latest(t, d) == Latest(s, d);
    assert Latest(t, c) == Some(k);
  }

  lemma ConfigIncreasing(s: State, c: ConversationId, id: string, receipt: Receipt, k: Config)
    requires Increasing(s) && (Latest(s, c).Some? ==> k.generation > Generation(s, c))
    ensures Increasing(Written(s, c, id, receipt, Some(k)))
  {
  }

  lemma ConfigBudget(s: State, c: ConversationId, id: string, receipt: Receipt, k: Config)
    requires Bounds(s) && WithinBudget(s) && (Latest(s, c).Some? ==> k.generation > Generation(s, c))
    ensures WithinBudget(Written(s, c, id, receipt, Some(k)))
  {
    var t := Written(s, c, id, receipt, Some(k));
    forall d, i | d in t.configs && 0 <= i < |t.configs[d]|
      ensures |ByOthers(t, d, t.configs[d][i].generation)| <= 1 + t.configs[d][i].maxRevisions
    {
      assert ByOthers(t, d, t.configs[d][i].generation) == ByOthers(s, d, t.configs[d][i].generation);
      assert ByOthers(s, c, k.generation) == {};
    }
  }

  lemma FlagsKeepTerms(s: State, t: State)
    requires Terms(s) && t.configs == s.configs && SameButFlags(s.tasks, t.tasks)
    ensures Terms(t)
  {
    forall c, g ensures ByOthers(t, c, g) == ByOthers(s, c, g) {}
    assert forall c :: Latest(t, c) == Latest(s, c);
    assert WithinBudget(t);
  }

  lemma CommitKeepsTerms(s: State, m: Commit)
    requires Terms(s) && Sound(s, m) && !Rewrites(s, m)
    ensures Terms(Apply(s, m))
  {
    match m {
      case Configure(c, id, receipt, k) => ConfigKeepsTerms(s, c, id, receipt, k);
      case Answer(_, _, _) => FlagsKeepTerms(s, Apply(s, m));
      case Place(t) => PlaceKeepsTerms(s, t);
      case Mark(_, _) => FlagsKeepTerms(s, Apply(s, m));
    }
  }

  /** No step breaks the order of generations, the bounds or the budgets, but one that recreates. */
  lemma NextKeepsTerms(s: State, a: Action)
    requires Terms(s) && forall c :: !Recreates(s, a, c)
    ensures Terms(Next(s, a))
  {
    var m, n := Commits(s, a);
    CommitKeepsTerms(s, m);
    CommitKeepsTerms(Apply(s, m), n);
  }

  lemma NextKeepsGood(s: State, a: Action)
    requires Good(s)
    ensures Good(Next(s, a)) <==> forall c :: !Recreates(s, a, c)
  {
    NextKeepsRequests(s, a);
    if c :| Recreates(s, a, c) {
      RecreateBreaksOrder(s, a, c);
    } else {
      NextKeepsTerms(s, a);
    }
  }

  lemma TakeoverKeepsGood(s: State, c: ConversationId, paused: bool, crash: Option<nat>)
    requires Good(s)
    ensures Good(TakeoverUi(s, c, paused, crash).0)
  {
    NextKeepsGood(s, UiTakeover(c, paused, crash));
  }

  lemma RecreateBreaksOrder(s: State, a: Action, c: ConversationId)
    requires Recreates(s, a, c)
    ensures !Increasing(Next(s, a))
  {
    var t := Next(s, a);
    var n := |s.configs[c]|;
    assert t.configs[c][n - 1].generation >= t.configs[c][n].generation;
  }

  // ------------------------------------------------------------- whole runs

  /** Configuration entries are only ever appended. */
  ghost predicate LogKept(s: State, t: State) {
    forall c :: c in s.configs ==> c in t.configs && s.configs[c] <= t.configs[c]
  }

  lemma NextKeepsLog(s: State, a: Action)
    ensures LogKept(s, Next(s, a))
  {
    var m, n := Commits(s, a);
    CommitKeepsLog(s, m);
    CommitKeepsLog(Apply(s, m), n);
  }

  lemma {:induction false} RunKeepsLog(s: State, actions: seq<Action>)
    ensures LogKept(s, Run(s, actions))
    decreases |actions|
  {
    if actions != [] {
      NextKeepsLog(s, actions[0]);
      RunKeepsLog(Next(s, actions[0]), actions[1..]);
    }
  }

  /** No step of the run recreates the conversation. */
  ghost predicate NeverRecreated(s: State, actions: seq<Action>, c: ConversationId)
    decreases |actions|
  {
    actions == [] || (!Recreates(s, actions[0], c) && NeverRecreated(Next(s, actions[0]), actions[1..], c))
  }

  /** No step of the run recreates any conversation. */
  ghost predicate NoRecreation(s: State, actions: seq<Action>)
    decreases |actions|
  {
    actions == [] || ((forall c :: !Recreates(s, actions[0], c)) && NoRecreation(Next(s, actions[0]), actions[1..]))
  }

  lemma {:induction false} NoRecreationOfAny(s: State, actions: seq<Action>, c: ConversationId)
    requires NoRecreation(s, actions)
    ensures NeverRecreated(s, actions, c)
    decreases |actions|
  {
    if actions != [] { NoRecreationOfAny(Next(s, actions[0]), actions[1..], c); }
  }

  /** The whole invariant over a run, exactly: it holds at the end if and only if no step recreated a
      conversation, since a broken order stays in the log. */
  lemma {:induction false} RunIsGoodIff(s: State, actions: seq<Action>)
    requires Good(s)
    ensures Good(Run(s, actions)) <==> NoRecreation(s, actions)
    decreases |actions|
  {
    if actions != [] {
      var t := Next(s, actions[0]);
      NextKeepsGood(s, actions[0]);
      if c :| Recreates(s, actions[0], c) {
        RecreateBreaksOrder(s, actions[0], c);
        RunKeepsLog(t, actions[1..]);
        DisorderStays(t, Run(t, actions[1..]));
      } else {
        RunIsGoodIff(t, actions[1..]);
      }
    }
  }

  lemma DisorderStays(s: State, t: State)
    requires LogKept(s, t) && !Increasing(s)
    ensures !Increasing(t)
  {
    var c, i, j :| c in s.configs && 0 <= i < j < |s.configs[c]| && s.configs[c][i].generation >= s.configs[c][j].generation;
    assert t.configs[c][i] == s.configs[c][i] && t.configs[c][j] == s.configs[c][j];
  }

  function Empty(): State {
    State(map[], map[], [], false)
  }

  /** The generation's delegated admissions fit the budget of some entry of that generation. */
  ghost predicate Covered(s: State, c: ConversationId, generation: nat) {
    exists i :: c in s.configs && 0 <= i < |s.configs[c]| && s.configs[c][i].generation == generation
                && |ByOthers(s, c, generation)| <= 1 + s.configs[c][i].maxRevisions
  }

  /** Every generation in which anything was admitted by a delegated caller is covered. */
  ghost predicate Budgeted(s: State) {
    forall c, generation: nat :: ByOthers(s, c, generation) != {} ==> Covered(s, c, generation)
  }

  lemma CommitKeepsBudget(s: State, m: Commit)
    requires Budgeted(s) && Sound(s, m)
    ensures Budgeted(Apply(s, m))
  {
    var t := Apply(s, m);
    CommitKeepsLog(s, m);
    forall c, g: nat | ByOthers(t, c, g) != {} ensures Covered(t, c, g) {
      if !m.Place? { OthersUnchanged(s, m, c, g); }
      if ByOthers(t, c, g) == ByOthers(s, c, g) {
        CoverStays(s, t, c, g);
      } else {
        NewAdmissionCovered(s, m.task, c, g);
      }
    }
  }

  lemma CoverStays(s: State, t: State, c: ConversationId, g: nat)
    requires Covered(s, c, g) && LogKept(s, t) && ByOthers(t, c, g) == ByOthers(s, c, g)
    ensures Covered(t, c, g)
  {
    var i :| c in s.configs && 0 <= i < |s.configs[c]| && s.configs[c][i].generation == g
             && |ByOthers(s, c, g)| <= 1 + s.configs[c][i].maxRevisions;
    assert t.configs[c][i] == s.configs[c][i];
  }

  lemma OthersUnchanged(s: State, m: Commit, c: ConversationId, g: nat)
    requires Sound(s, m) && !m.Place?
    ensures ByOthers(Apply(s, m), c, g) == ByOthers(s, c, g)
  {
  }

  /** An admission is covered by the newest entry, under which it was made. */
  lemma NewAdmissionCovered(s: State, task: Task, c: ConversationId, g: nat)
    requires Sound(s, Place(task)) && ByOthers(Admit(s, task), c, g) != ByOthers(s, c, g)
    ensures Covered(Admit(s, task), c, g)
  {
    var t := Admit(s, task);
    ByOthersAfterAdmit(s, task, c, g);
    SubsetSize(ByOthers(s, c, g), InGeneration(s, c, g));
    var i := |s.configs[c]| - 1;
    assert t.configs[c][i] == Latest(s, c).value && t.configs[c][i].generation == g;
    assert |ByOthers(t, c, g)| <= |ByOthers(s, c, g)| + 1;
  }

  lemma CommitKeepsLog(s: State, m: Commit)
    ensures LogKept(s, Apply(s, m))
  {
  }

  /** Over every run, with no assumption at all: the delegated admissions of a generation never exceed one plus the
      revisions of an entry written for that generation. */
  lemma {:induction false} RunKeepsBudget(s: State, actions: seq<Action>)
    requires Budgeted(s)
    ensures Budgeted(Run(s, actions))
    decreases |actions|
  {
    if actions != [] {
      var m, n := Commits(s, actions[0]);
      CommitKeepsBudget(s, m);
      CommitKeepsBudget(Apply(s, m), n);
      RunKeepsBudget(Next(s, actions[0]), actions[1..]);
    }
  }

  lemma CommitKeepsBounds(s: State, m: Commit)
    requires Bounds(s) && Sound(s, m)
    requires m.Configure? && Latest(s, m.c).Some? ==> m.config.generation >= Generation(s, m.c)
    ensures Bounds(Apply(s, m))
  {
    var t := Apply(s, m);
    forall r | 0 <= r < |t.tasks| && t.tasks[r].lease.Some?
      ensures Latest(t, t.tasks[r].conversation).Some?
      ensures t.tasks[r].lease.value.generation <= Generation(t, t.tasks[r].conversation)
    {
      CommitLatest(s, m, t.tasks[r].conversation);
      if r < |s.tasks| { assert s.tasks[r].lease == t.tasks[r].lease && s.tasks[r].conversation == t.tasks[r].conversation; }
    }
  }

  /** A step keeps every task within its conversation's generation, unless it lowers one. */
  lemma NextKeepsBounds(s: State, a: Action)
    requires Bounds(s) && forall c :: !Lowers(s, a, c)
    ensures Bounds(Next(s, a))
  {
    var m, n := Commits(s, a);
    if m.Configure? { assert !Lowers(s, a, m.c); }
    CommitKeepsBounds(s, m);
    CommitKeepsBounds(Apply(s, m), n);
  }

  /** Every controlled task of the conversation is of generation 1 at most. */
  ghost predicate NoneAboveOne(s: State, c: ConversationId) {
    forall r :: 0 <= r < |s.tasks| && s.tasks[r].conversation == c && s.tasks[r].lease.Some? ==>
      s.tasks[r].lease.value.generation <= 1
  }

  /** Exactly when a step keeps every task within its conversation's generation: if it lowers one, no task above
      generation 1 may be left there. */
  lemma NextKeepsBoundsIff(s: State, a: Action)
    requires Bounds(s)
    ensures Bounds(Next(s, a)) <==> forall c :: Lowers(s, a, c) ==> NoneAboveOne(s, c)
  {
    if c :| Lowers(s, a, c) {
      LoweredBounds(s, a, c);
      assert forall d :: Lowers(s, a, d) ==> d == c;
    } else {
      NextKeepsBounds(s, a);
    }
  }

  lemma LoweredBounds(s: State, a: Action, c: ConversationId)
    requires Bounds(s) && Lowers(s, a, c)
    ensures Bounds(Next(s, a)) <==> NoneAboveOne(s, c)
  {
    var t := Next(s, a);
    assert t.tasks == s.tasks && Generation(t, c) == 1 && Latest(t, c).Some?;
    assert forall d :: d != c ==> Latest(t, d) == Latest(s, d);
    if NoneAboveOne(s, c) {
      forall r | 0 <= r < |t.tasks| && t.tasks[r].lease.Some?
        ensures Latest(t, t.tasks[r].conversation).Some?
        ensures t.tasks[r].lease.value.generation <= Generation(t, t.tasks[r].conversation)
      {
      }
    }
  }

  /** No step of the run lowers any generation. */
  ghost predicate NothingLowered(s: State, actions: seq<Action>)
    decreases |actions|
  {
    actions == [] || ((forall c :: !Lowers(s, actions[0], c)) && NothingLowered(Next(s, actions[0]), actions[1..]))
  }

  /** No task ever runs ahead of its conversation, on every run that lowers no generation. */
  lemma {:induction false} RunKeepsBounds(s: State, actions: seq<Action>)
    requires Bounds(s) && NothingLowered(s, actions)
    ensures Bounds(Run(s, actions))
    decreases |actions|
  {
    if actions != [] {
      NextKeepsBounds(s, actions[0]);
      RunKeepsBounds(Next(s, actions[0]), actions[1..]);
    }
  }

  /** From an empty database, over every run whatever happens: one task per request and every budget kept; no task
      ahead of its conversation, unless a generation was lowered; and increasing generations with every entry's
      own budget kept, if and only if no conversation was recreated. */
  lemma EveryRunIsGood(actions: seq<Action>)
    ensures Requests(Run(Empty(), actions)) && Budgeted(Run(Empty(), actions))
    ensures NothingLowered(Empty(), actions) ==> Bounds(Run(Empty(), actions))
    ensures Good(Run(Empty(), actions)) <==> NoRecreation(Empty(), actions)
  {
    assert Good(Empty()) && Budgeted(Empty());
    RunKeepsRequests(Empty(), actions);
    RunKeepsBudget(Empty(), actions);
    if NothingLowered(Empty(), actions) { RunKeepsBounds(Empty(), actions); }
    RunIsGoodIff(Empty(), actions);
  }

  /** A created conversation has the receipt of its creation. */
  ghost predicate Receipts(s: State) {
    forall c :: c in s.configs && c.Made? ==> (c, c.requestId) in s.receipts
  }

  /** Imported sessions carry UI ids, never an id that `create_conversation` derives. */
  predicate Ordinary(a: Action) {
    a.UiImport? ==> a.conversation.Named?
  }

  /** As long as imported sessions carry UI ids, nothing is ever recreated. */
  lemma {:induction false} OrdinaryNeverRecreates(s: State, actions: seq<Action>)
    requires Receipts(s) && forall i :: 0 <= i < |actions| ==> Ordinary(actions[i])
    ensures NoRecreation(s, actions)
    decreases |actions|
  {
    if actions != [] {
      OrdinaryKeepsReceipts(s, actions[0]);
      OrdinaryNeverRecreates(Next(s, actions[0]), actions[1..]);
    }
  }

  lemma OrdinaryKeepsReceipts(s: State, a: Action)
    requires Receipts(s) && Ordinary(a)
    ensures Receipts(Next(s, a))
  {
    NextKeepsReceiptKeys(s, a);
    forall c | c in Next(s, a).configs && c.Made? ensures (c, c.requestId) in Next(s, a).receipts {
      if c !in s.configs { NewConfigIsCreated(s, a, c); }
    }
  }

  lemma NextKeepsReceiptKeys(s: State, a: Action)
    ensures s.receipts.Keys <= Next(s, a).receipts.Keys
  {
    var m, n := Commits(s, a);
  }

  lemma NewConfigIsCreated(s: State, a: Action, c: ConversationId)
    requires c !in s.configs && c in Next(s, a).configs && c.Made? && Ordinary(a)
    ensures (c, c.requestId) in Next(s, a).receipts
  {
  }

  // ------------------------------------------------------------- the fence

  /** Every controlled task below the generation has been cancelled. */
  ghost predicate Revoked(s: State, c: ConversationId, generation: nat) {
    forall r :: 0 <= r < |s.tasks| && Owned(s.tasks[r], c, generation) ==> Dead(s.tasks[r])
  }

  /** What no step undoes: the identity of tasks and their cancellation. */
  ghost predicate TasksKept(s: State, t: State) {
    |s.tasks| <= |t.tasks| && SameButFlags(s.tasks, t.tasks[..|s.tasks|])
  }

  lemma CommitKeepsTasks(s: State, m: Commit)
    requires Sound(s, m)
    ensures TasksKept(s, Apply(s, m))
  {
  }

  lemma TasksKeptOn(s: State, t: State, u: State)
    requires TasksKept(s, t) && TasksKept(t, u)
    ensures TasksKept(s, u)
  {
    forall r | 0 <= r < |s.tasks|
      ensures u.tasks[r].conversation == s.tasks[r].conversation && u.tasks[r].lease == s.tasks[r].lease
      ensures Dead(s.tasks[r]) ==> Dead(u.tasks[r])
    {
      assert t.tasks[..|s.tasks|][r] == t.tasks[r] && u.tasks[..|t.tasks|][r] == u.tasks[r];
    }
  }

  lemma {:induction false} RunKeepsTasks(s: State, actions: seq<Action>)
    ensures TasksKept(s, Run(s, actions))
    decreases |actions|
  {
    if actions != [] {
      var m, n := Commits(s, actions[0]);
      CommitKeepsTasks(s, m);
      CommitKeepsTasks(Apply(s, m), n);
      TasksKeptOn(s, Apply(s, m), Next(s, actions[0]));
      RunKeepsTasks(Next(s, actions[0]), actions[1..]);
      TasksKeptOn(s, Next(s, actions[0]), Run(s, actions));
    }
  }

  /** A draining service that is not activated again goes on draining and admits no controlled task. */
  lemma {:induction false} DrainedAdmitsNothing(s: State, actions: seq<Action>)
    requires s.draining && forall i :: 0 <= i < |actions| ==> actions[i] != Activate
    ensures var t := Run(s, actions);
            && t.draining && |s.tasks| <= |t.tasks|
            && forall r :: |s.tasks| <= r < |t.tasks| ==> t.tasks[r].lease.None?
    decreases |actions|
  {
    if actions != [] {
      var t := Next(s, actions[0]);
      DrainedStep(s, actions[0]);
      DrainedAdmitsNothing(t, actions[1..]);
      RunKeepsTasks(t, actions[1..]);
      var u := Run(t, actions[1..]);
      forall r | |s.tasks| <= r < |t.tasks| ensures u.tasks[r].lease.None? { assert u.tasks[..|t.tasks|][r] == u.tasks[r]; }
    }
  }

  lemma DrainedStep(s: State, a: Action)
    requires s.draining && a != Activate
    ensures var t := Next(s, a);
            && t.draining && |s.tasks| <= |t.tasks|
            && forall r :: |s.tasks| <= r < |t.tasks| ==> t.tasks[r].lease.None?
  {
  }

  /** Since `s`, the conversation's generation has not gone below `floor`, and every task admitted to it
      carries at least that. */
  ghost predicate Above(s: State, t: State, c: ConversationId, floor: nat) {
    && |s.tasks| <= |t.tasks| && floor <= Generation(t, c)
    && (forall r :: |s.tasks| <= r < |t.tasks| && t.tasks[r].conversation == c && t.tasks[r].lease.Some? ==>
          floor <= t.tasks[r].lease.value.generation)
  }

  lemma CommitStaysAbove(s: State, m: Commit, c: ConversationId, floor: nat)
    requires Sound(s, m) && floor <= Generation(s, c)
    requires m.Configure? && m.c == c ==> floor <= m.config.generation
    ensures Above(s, Apply(s, m), c, floor)
  {
    var t := Apply(s, m);
    if !(m.Configure? && m.c == c) { assert Latest(t, c) == Latest(s, c); }
  }

  /** A step keeps the floor unless it recreates the conversation below it. */
  lemma StepStaysAbove(s: State, a: Action, c: ConversationId, floor: nat)
    requires floor <= Generation(s, c) && (floor <= 1 || !Recreates(s, a, c))
    ensures Above(s, Next(s, a), c, floor)
  {
    var m, n := Commits(s, a);
    CommitStaysAbove(s, m, c, floor);
    CommitStaysAbove(Apply(s, m), n, c, floor);
    var u := Apply(s, m);
    CommitKeepsTasks(u, n);
    forall r | |s.tasks| <= r < |u.tasks| ensures Next(s, a).tasks[r].lease == u.tasks[r].lease {
      assert Next(s, a).tasks[..|u.tasks|][r] == Next(s, a).tasks[r];
    }
    forall r | |s.tasks| <= r < |u.tasks| ensures Next(s, a).tasks[r].conversation == u.tasks[r].conversation {
      assert Next(s, a).tasks[..|u.tasks|][r] == Next(s, a).tasks[r];
    }
  }

  /** No step of the run lowers the conversation's generation. */
  ghost predicate NeverLowered(s: State, actions: seq<Action>, c: ConversationId)
    decreases |actions|
  {
    actions == [] || (!Lowers(s, actions[0], c) && NeverLowered(Next(s, actions[0]), actions[1..], c))
  }

  predicate Lowers(s: State, a: Action, c: ConversationId) {
    Recreates(s, a, c) && Generation(s, c) > 1
  }

  /** Exactly one step can lower a generation: creating a conversation that is already configured past
      generation 1 and whose creation has no receipt. */
  lemma StepLowersGenerationIff(s: State, a: Action, c: ConversationId)
    ensures Generation(Next(s, a), c) < Generation(s, c) <==> Lowers(s, a, c)
  {
    if Recreates(s, a, c) {
      var m, n := Commits(s, a);
      assert Latest(Apply(s, m), c) == Some(m.config);
      CommitStaysAbove(Apply(s, m), n, c, 1);
      assert Latest(Next(s, a), c) == Latest(Apply(s, m), c);
    } else {
      StepStaysAbove(s, a, c, Generation(s, c));
    }
  }

  lemma {:induction false} RunStaysAbove(s: State, actions: seq<Action>, c: ConversationId, floor: nat)
    requires floor <= Generation(s, c) && (floor <= 1 || NeverLowered(s, actions, c))
    ensures Above(s, Run(s, actions), c, floor)
    decreases |actions|
  {
    if actions != [] {
      var t := Next(s, actions[0]);
      StepLowersGenerationIff(s, actions[0], c);
      StepStaysAbove(s, actions[0], c, floor);
      RunStaysAbove(t, actions[1..], c, floor);
      RunKeepsTasks(t, actions[1..]);
      var u := Run(s, actions);
      forall r | |s.tasks| <= r < |t.tasks|
        ensures u.tasks[r].lease == t.tasks[r].lease && u.tasks[r].conversation == t.tasks[r].conversation
      {
        assert u.tasks[..|t.tasks|][r] == u.tasks[r];
      }
    }
  }

  /** Over every run a conversation's generation does not decrease, unless a step lowers it. */
  lemma GenerationNeverDecreases(s: State, actions: seq<Action>, c: ConversationId)
    requires NeverLowered(s, actions, c)
    ensures Generation(s, c) <= Generation(Run(s, actions), c)
  {
    RunStaysAbove(s, actions, c, Generation(s, c));
  }

  /** Once the generation has passed a task's, every later dispatch is refused, and cancels it unless the
      service drains, on every run that does not lower the generation. */
  lemma FencedForever(s: State, actions: seq<Action>, run: nat, now: int)
    requires run < |s.tasks| && s.tasks[run].lease.Some?
    requires s.tasks[run].lease.value.generation < Generation(s, s.tasks[run].conversation)
    requires NeverLowered(s, actions, s.tasks[run].conversation)
    ensures var t := Run(s, actions);
            && run < |t.tasks| && !PermitsDispatch(t, run, now).1
            && (!t.draining ==> Dead(PermitsDispatch(t, run, now).0.tasks[run]))
  {
    var t := Run(s, actions);
    RunStaysAbove(s, actions, s.tasks[run].conversation, Generation(s, s.tasks[run].conversation));
    RunKeepsTasks(s, actions);
    assert t.tasks[..|s.tasks|][run] == t.tasks[run];
  }

  /** What was revoked stays revoked on such a run: later admissions carry at least the revoking generation. */
  lemma RevokedForever(s: State, actions: seq<Action>, c: ConversationId, generation: nat)
    requires Revoked(s, c, generation) && generation <= Generation(s, c)
    requires generation <= 1 || NeverLowered(s, actions, c)
    ensures Revoked(Run(s, actions), c, generation)
  {
    var t := Run(s, actions);
    RunStaysAbove(s, actions, c, generation);
    RunKeepsTasks(s, actions);
    forall r | 0 <= r < |t.tasks| && Owned(t.tasks[r], c, generation) ensures Dead(t.tasks[r]) {
      if r < |s.tasks| { assert t.tasks[..|s.tasks|][r] == t.tasks[r]; }
    }
  }

  // --------------------------------------------- when the fence holds for good

  /** The conversation's creation can still come: its id is derived and the creation has no receipt. */
  predicate CanRecreate(s: State, c: ConversationId) {
    c.Made? && (c, c.requestId) !in s.receipts
  }

  lemma {:induction false} ClosedNeverLowered(s: State, actions: seq<Action>, c: ConversationId)
    requires !CanRecreate(s, c)
    ensures NeverLowered(s, actions, c)
    decreases |actions|
  {
    if actions != [] {
      NextKeepsReceiptKeys(s, actions[0]);
      ClosedNeverLowered(Next(s, actions[0]), actions[1..], c);
    }
  }

  lemma RunCons(s: State, a: Action, rest: seq<Action>)
    ensures Run(s, [a] + rest) == Run(Next(s, a), rest)
  {
    assert ([a] + rest)[1..] == rest;
  }

  function Operator(): Actor {
    Actor("user", true)
  }

  function Plain(): Env {
    Env(0, true, None)
  }

  /** The creation, when it can still come. */
  function Creation(c: ConversationId): Action
    requires c.Made?
  {
    Do(Actor(c.actor, true), c, c.requestId, Create(0, 1), Plain())
  }

  lemma CreationRestarts(s: State, c: ConversationId)
    requires CanRecreate(s, c)
    ensures var t := Next(s, Creation(c));
            && Latest(t, c).Some? && Generation(t, c) == 1 && Latest(t, c).value.mode == Delegated
            && Latest(t, c).value.expiresAt > 0 && t.tasks == s.tasks && t.draining == s.draining
  {
  }

  /** Grants take a delegated conversation to any later generation. */
  lemma {:induction false} GrantsReach(s: State, c: ConversationId, generation: nat) returns (actions: seq<Action>)
    requires Latest(s, c).Some? && Generation(s, c) <= generation
    requires Latest(s, c).value.mode == Delegated && Latest(s, c).value.expiresAt > 0
    ensures var t := Run(s, actions);
            && Latest(t, c).Some? && Generation(t, c) == generation && Latest(t, c).value.mode == Delegated
            && Latest(t, c).value.expiresAt > 0 && t.tasks == s.tasks && t.draining == s.draining
    decreases generation - Generation(s, c)
  {
    actions := [];
    if Generation(s, c) < generation {
      var id := FreshString(set key | key in s.receipts :: key.1);
      assert (c, id) !in s.receipts;
      var a := Do(Operator(), c, id, Grant(Generation(s, c), 0, 1), Plain());
      var rest := GrantsReach(Next(s, a), c, generation);
      RunCons(s, a, rest);
      actions := [a] + rest;
    }
  }

  ghost predicate Refuses(s: State, run: nat, now: int) {
    run < |s.tasks| && !PermitsDispatch(s, run, now).1
  }

  /** When a fenced task is refused in every future: exactly when it is of generation 0 or its conversation cannot
      be recreated. Draining does not decide it, since the service can be activated again. */
  lemma FencedForeverIff(s: State, run: nat)
    requires run < |s.tasks| && s.tasks[run].lease.Some?
    requires s.tasks[run].lease.value.generation < Generation(s, s.tasks[run].conversation)
    ensures (forall actions: seq<Action>, now: int :: Refuses(Run(s, actions), run, now)) <==>
            s.tasks[run].lease.value.generation == 0 || !CanRecreate(s, s.tasks[run].conversation)
  {
    var c, g := s.tasks[run].conversation, s.tasks[run].lease.value.generation;
    if g == 0 || !CanRecreate(s, c) {
      forall actions: seq<Action>, now: int ensures Refuses(Run(s, actions), run, now) {
        StaysFenced(s, run, actions, now);
      }
    } else {
      var u := Next(s, Activate);
      CreationRestarts(u, c);
      var rest := GrantsReach(Next(u, Creation(c)), c, g);
      RunCons(s, Activate, [Creation(c)] + rest);
      RunCons(u, Creation(c), rest);
      assert !Refuses(Run(s, [Activate] + ([Creation(c)] + rest)), run, 0);
    }
  }

  lemma StaysFenced(s: State, run: nat, actions: seq<Action>, now: int)
    requires run < |s.tasks| && s.tasks[run].lease.Some?
    requires s.tasks[run].lease.value.generation < Generation(s, s.tasks[run].conversation)
    requires s.tasks[run].lease.value.generation == 0 || !CanRecreate(s, s.tasks[run].conversation)
    ensures Refuses(Run(s, actions), run, now)
  {
    var c := s.tasks[run].conversation;
    var t := Run(s, actions);
    RunKeepsTasks(s, actions);
    assert t.tasks[..|s.tasks|][run] == t.tasks[run];
    if !CanRecreate(s, c) {
      ClosedNeverLowered(s, actions, c);
      FencedForever(s, actions, run, now);
    } else {
      RunStaysAbove(s, actions, c, 1);
    }
  }

  /** When a generation can never go down: exactly when it is at most 1 or its conversation cannot be recreated. */
  lemma NeverDecreasesIff(s: State, c: ConversationId)
    ensures (forall actions: seq<Action> :: Generation(s, c) <= Generation(Run(s, actions), c)) <==>
            Generation(s, c) <= 1 || !CanRecreate(s, c)
  {
    if Generation(s, c) <= 1 || !CanRecreate(s, c) {
      forall actions: seq<Action> ensures Generation(s, c) <= Generation(Run(s, actions), c) {
        if !CanRecreate(s, c) { ClosedNeverLowered(s, actions, c); }
        RunStaysAbove(s, actions, c, Generation(s, c));
      }
    } else {
      CreationRestarts(s, c);
      RunCons(s, Creation(c), []);
      assert Generation(Run(s, [Creation(c)] + []), c) == 1;
    }
  }

  /** When a revocation holds in every future: exactly when it revoked at most generation 0, or the conversation
      cannot be recreated. */
  lemma RevokedForeverIff(s: State, c: ConversationId, generation: nat)
    requires Revoked(s, c, generation) && generation <= Generation(s, c)
    ensures (forall actions: seq<Action> :: Revoked(Run(s, actions), c, generation)) <==>
            generation <= 1 || !CanRecreate(s, c)
  {
    if generation <= 1 || !CanRecreate(s, c) {
      forall actions: seq<Action> ensures Revoked(Run(s, actions), c, generation) {
        if !CanRecreate(s, c) { ClosedNeverLowered(s, actions, c); }
        RevokedForever(s, actions, c, generation);
      }
    } else {
      var u := Next(s, Activate);
      var actions := AdmitsBelow(u, c, generation);
      RunCons(s, Activate, actions);
      assert !Revoked(Run(s, [Activate] + actions), c, generation);
    }
  }

  /** A revocation also holds while the service drains. */
  lemma DrainedStaysRevoked(s: State, actions: seq<Action>, c: ConversationId, generation: nat)
    requires s.draining && Revoked(s, c, generation) && forall i :: 0 <= i < |actions| ==> actions[i] != Activate
    ensures Revoked(Run(s, actions), c, generation)
  {
    var t := Run(s, actions);
    RunKeepsTasks(s, actions);
    DrainedAdmitsNothing(s, actions);
    forall r | 0 <= r < |t.tasks| && Owned(t.tasks[r], c, generation) ensures Dead(t.tasks[r]) {
      if r < |s.tasks| { assert t.tasks[..|s.tasks|][r] == t.tasks[r]; }
    }
  }

  /** After a recreation an operator's send is admitted under generation 1. */
  lemma AdmitsBelow(s: State, c: ConversationId, generation: nat) returns (actions: seq<Action>)
    requires !s.draining && generation > 1 && CanRecreate(s, c)
    ensures !Revoked(Run(s, actions), c, generation)
  {
    var t := Next(s, Creation(c));
    CreationRestarts(s, c);
    var id := FreshString((set key | key in t.receipts :: key.1)
                          + set r | 0 <= r < |t.tasks| && t.tasks[r].lease.Some? :: t.tasks[r].lease.value.requestId);
    assert (c, id) !in t.receipts;
    assert FindItem(t.tasks, c, id).None?;
    var a := Do(Operator(), c, id, Send(1, ""), Plain());
    var u := Next(t, a);
    assert u.tasks[|t.tasks|] == Task(c, Some(Lease("user", true, 1, id, Send(1, ""))), false, false);
    assert Owned(u.tasks[|t.tasks|], c, generation) && !Dead(u.tasks[|t.tasks|]);
    actions := [Creation(c)] + [a];
    RunCons(s, Creation(c), [a]);
    RunCons(t, a, []);
    assert [a] + [] == [a];
  }

  /** The steps that open a fence: a session is imported under a derived id, delegated and given work, and a
      pause moves the generation on but the service stops before cancelling. */
  function Opening(c: ConversationId, grant: string, send: string, pause: string): seq<Action> {
    [UiImport(c), Do(Operator(), c, grant, Grant(0, 0, 1), Plain()), Do(Operator(), c, send, Send(1, ""), Plain()),
     Do(Operator(), c, pause, Pause(1), Env(0, true, Some(0)))]
  }

  lemma DelegatedImport(c: ConversationId, grant: string)
    requires grant != "import-ui"
    ensures var s := Next(Next(Empty(), UiImport(c)), Do(Operator(), c, grant, Grant(0, 0, 1), Plain()));
            && Latest(s, c).Some? && Generation(s, c) == 1 && s.tasks == [] && !s.draining
            && s.receipts.Keys == {(c, "import-ui"), (c, grant)}
  {
    var s := Next(Empty(), UiImport(c));
    assert Latest(s, c) == Some(Imported());
  }

  lemma PausedWork(s: State, c: ConversationId, send: string, pause: string)
    requires Latest(s, c).Some? && Generation(s, c) == 1 && s.tasks == [] && !s.draining
    requires (c, send) !in s.receipts && (c, pause) !in s.receipts && send != pause
    ensures var t := Next(Next(s, Do(Operator(), c, send, Send(1, ""), Plain())),
                          Do(Operator(), c, pause, Pause(1), Env(0, true, Some(0))));
            && t.tasks == [Task(c, Some(Lease("user", true, 1, send, Send(1, ""))), false, false)] && !t.draining
            && Latest(t, c).Some? && Generation(t, c) == 2 && t.receipts.Keys == s.receipts.Keys + {(c, send), (c, pause)}
  {
    var u := Next(s, Do(Operator(), c, send, Send(1, ""), Plain()));
    assert u.tasks == [Task(c, Some(Lease("user", true, 1, send, Send(1, ""))), false, false)];
    assert Latest(u, c) == Latest(s, c) && u.receipts.Keys == s.receipts.Keys + {(c, send)};
    var t := Next(u, Do(Operator(), c, pause, Pause(1), Env(0, true, Some(0))));
    assert t.tasks == u.tasks;
  }

  /** The lowering step is reachable, and with it the fence opens again: from an empty database, for every
      derived id and any fresh request ids, a task that was fenced and never cancelled is dispatchable after
      the creation of that id. */
  lemma FenceReopens(c: ConversationId, grant: string, send: string, pause: string)
    requires c.Made? && Distinct([c.requestId, "import-ui", grant, send, pause])
    ensures var s := Run(Empty(), Opening(c, grant, send, pause));
            var t := Next(s, Creation(c));
            && |s.tasks| == 1 && !Dead(s.tasks[0]) && Generation(s, c) == 2 && Refuses(s, 0, 0)
            && Generation(t, c) == 1 && !Refuses(t, 0, 0)
  {
    var ids := [c.requestId, "import-ui", grant, send, pause];
    assert ids[0] != ids[1] && ids[0] != ids[2] && ids[0] != ids[3] && ids[0] != ids[4] && ids[1] != ids[2];
    assert ids[1] != ids[3] && ids[1] != ids[4] && ids[2] != ids[3] && ids[2] != ids[4] && ids[3] != ids[4];
    var actions := Opening(c, grant, send, pause);
    DelegatedImport(c, grant);
    var s2 := Next(Next(Empty(), actions[0]), actions[1]);
    PausedWork(s2, c, send, pause);
    var s := Next(Next(s2, actions[2]), actions[3]);
    RunFour(Empty(), actions[0], actions[1], actions[2], actions[3]);
    CreationRestarts(s, c);
  }

  lemma RunFour(s: State, a: Action, b: Action, c: Action, d: Action)
    ensures Run(s, [a, b, c, d]) == Next(Next(Next(Next(s, a), b), c), d)
  {
    RunCons(s, a, [b, c, d]);
    RunCons(Next(s, a), b, [c, d]);
    RunCons(Next(Next(s, a), b), c, [d]);
    RunCons(Next(Next(Next(s, a), b), c), d, []);
    assert [a, b, c, d] == [a] + [b, c, d] && [b, c, d] == [b] + [c, d] && [c, d] == [c] + [d] && [d] == [d] + [];
  }

  // ------------------------------------------------- dispatch, pause, takeover

  lemma AdmissionTerms(s: State, actor: Actor, c: ConversationId, requestId: string, command: Command, env: Env)
    requires command.Send?
    requires |Execute(s, actor, c, requestId, command, env).0.tasks| == |s.tasks| + 1
    ensures var u := Execute(s, actor, c, requestId, command, env).0;
            var task := u.tasks[|s.tasks|];
            && u.configs == s.configs && Latest(s, c).Some? && IsItem(task, c, requestId)
            && task.lease.value.generation == Latest(s, c).value.generation
            && task.lease.value.actor == actor.id && task.lease.value.command == command
            && (!actor.operator ==> Latest(s, c).value.mode == Delegated && env.now < Latest(s, c).value.expiresAt)
  {
  }

  lemma {:induction false} TermsStay(s: State, actions: seq<Action>, c: ConversationId)
    requires Latest(s, c).Some? && NeverRecreated(s, actions, c)
    ensures var t := Run(s, actions);
            Latest(t, c).Some? && (Latest(t, c) == Latest(s, c) || Generation(t, c) > Generation(s, c))
    decreases |actions|
  {
    if actions != [] {
      StepKeepsTerms(s, actions[0], c);
      TermsStay(Next(s, actions[0]), actions[1..], c);
    }
  }

  lemma StepKeepsTerms(s: State, a: Action, c: ConversationId)
    requires Latest(s, c).Some? && !Recreates(s, a, c)
    ensures var t := Next(s, a);
            Latest(t, c).Some? && (Latest(t, c) == Latest(s, c) || Generation(t, c) > Generation(s, c))
  {
    var m, n := Commits(s, a);
    CommitLatest(s, m, c);
    CommitLatest(Apply(s, m), n, c);
  }

  lemma CommitLatest(s: State, m: Commit, c: ConversationId)
    ensures Latest(Apply(s, m), c) == if m.Configure? && m.c == c then Some(m.config) else Latest(s, c)
  {
  }

  /** When an admitted task may be dispatched, after every run in which its conversation is not recreated:
      exactly while the service is not draining, no newer generation has been written, and the configuration
      it was admitted under is delegated and not yet expired. Both hold at the admission of a delegated
      caller; an operator's send needs neither. */
  lemma DispatchIff(s: State, actor: Actor, c: ConversationId, requestId: string, command: Command, env: Env,
                    between: seq<Action>, now: int)
    requires command.Send? && |Execute(s, actor, c, requestId, command, env).0.tasks| == |s.tasks| + 1
    requires NeverRecreated(Execute(s, actor, c, requestId, command, env).0, between, c)
    ensures Latest(s, c).Some?
    ensures var k := Latest(s, c).value;
            var t := Run(Execute(s, actor, c, requestId, command, env).0, between);
            && |s.tasks| < |t.tasks|
            && (PermitsDispatch(t, |s.tasks|, now).1 <==>
                  !t.draining && Generation(t, c) == k.generation && k.mode == Delegated && now < k.expiresAt)
            && (!actor.operator ==> k.mode == Delegated && env.now < k.expiresAt)
  {
    AdmissionTerms(s, actor, c, requestId, command, env);
    var u := Execute(s, actor, c, requestId, command, env).0;
    var t := Run(u, between);
    assert Latest(u, c) == Latest(s, c);
    TermsStay(u, between, c);
    RunKeepsTasks(u, between);
    assert t.tasks[..|u.tasks|][|s.tasks|] == t.tasks[|s.tasks|];
  }

  /** An operator's send to an imported conversation, which nobody has delegated: admitted, and refused. */
  lemma OperatorSendIsRefused(now: int)
    ensures var c := Named("chat");
            var s := Next(Next(Empty(), UiImport(c)), Do(Operator(), c, "s", Send(0, "work"), Plain()));
            |s.tasks| == 1 && !Dead(s.tasks[0]) && Refuses(s, 0, now)
  {
    var c := Named("chat");
    var s1 := Next(Empty(), UiImport(c));
    assert Latest(s1, c) == Some(Imported()) && (c, "s") !in s1.receipts;
    var s2 := Next(s1, Do(Operator(), c, "s", Send(0, "work"), Plain()));
    assert s2.tasks == [Task(c, Some(Lease("user", true, 0, "s", Send(0, "work"))), false, false)];
    assert Latest(s2, c) == Some(Imported());
  }

  lemma CancelRevokes(s: State, c: ConversationId, generation: nat, n: nat)
    ensures Revoked(CancelOwned(s, c, generation, n), c, generation) <==> Settled(s, c, generation, n)
  {
    var t := CancelOwned(s, c, generation, n);
    forall r | 0 <= r < |s.tasks| ensures Owned(t.tasks[r], c, generation) <==> Owned(s.tasks[r], c, generation) {}
  }

  /** From `n` on, no unfinished task is left below the generation. */
  ghost predicate Settled(s: State, c: ConversationId, generation: nat, n: nat) {
    forall r :: n <= r < |s.tasks| && Owned(s.tasks[r], c, generation) ==> Dead(s.tasks[r])
  }

  /** A pause that answers, first time or repeated after a crash, has revoked everything below the generation it reports. */
  lemma PauseRevokes(s: State, actor: Actor, c: ConversationId, requestId: string, expected: nat, env: Env)
    requires PauseReceipts(s)
    ensures var (t, r) := Execute(s, actor, c, requestId, Pause(expected), env);
            r.Ok? ==> r.result.Settings? && Revoked(t, c, r.result.config.generation)
  {
    if (c, requestId) in s.receipts {
      var prior := s.receipts[(c, requestId)];
      if prior.result.Settings? { CancelRevokes(s, c, prior.result.config.generation, |s.tasks|); }
    } else if Latest(s, c).Some? {
      var k := Latest(s, c).value;
      var next := k.(mode := Paused, generation := k.generation + 1);
      var barrier := Written(s, c, requestId, Receipt(actor.id, Pause(expected), Settings(next)), Some(next));
      CancelRevokes(barrier, c, next.generation, |s.tasks|);
    }
  }

  function TakenOver(k: Config, paused: bool): Config {
    k.(mode := if paused then Paused else Manual, generation := k.generation + 1)
  }

  /** What a UI takeover of a delegated conversation achieves. It ends the delegation exactly when its request
      id is still unused; every earlier task is then cancelled exactly when the service did not stop before
      considering all that were unfinished. */
  lemma TakeoverRevokesIff(s: State, c: ConversationId, paused: bool, crash: Option<nat>)
    requires Latest(s, c).Some? && Latest(s, c).value.mode == Delegated
    ensures var t := TakeoverUi(s, c, paused, crash).0;
            var g := Generation(s, c) + 1;
            var unused := (c, TakeoverId(g)) !in s.receipts;
            && (Generation(t, c) == g && Latest(t, c).value.mode != Delegated <==> unused)
            && (!unused ==> t == s)
            && (Generation(t, c) == g && Revoked(t, c, g) <==> unused && Settled(s, c, g, Considered(s, crash)))
  {
    var next := TakenOver(Latest(s, c).value, paused);
    var barrier := Written(s, c, TakeoverId(next.generation), Receipt("user", Takeover, Settings(next)), Some(next));
    CancelRevokes(barrier, c, next.generation, Considered(s, crash));
    if (c, TakeoverId(next.generation)) !in s.receipts {
      assert TakeoverUi(s, c, paused, crash).0 == CancelOwned(barrier, c, next.generation, Considered(s, crash));
      assert Latest(barrier, c) == Some(next);
    }
  }

  /** A takeover that was cut short is not repaired by another: the conversation is no longer delegated, so a
      repeat changes nothing. What was left is still refused, by the fence. */
  lemma RepeatedTakeoverIsIdle(s: State, c: ConversationId, paused: bool, crash: Option<nat>, again: bool, crash': Option<nat>)
    requires Latest(s, c).Some? && Latest(s, c).value.mode == Delegated
    requires (c, TakeoverId(Generation(s, c) + 1)) !in s.receipts
    ensures var t := TakeoverUi(s, c, paused, crash).0;
            && TakeoverUi(t, c, again, crash').0 == t
            && forall run, now: int :: 0 <= run < |s.tasks| && Owned(s.tasks[run], c, Generation(s, c) + 1) ==> Refuses(t, run, now)
  {
    TakeoverRevokesIff(s, c, paused, crash);
    var t := TakeoverUi(s, c, paused, crash).0;
    forall run, now: int | 0 <= run < |s.tasks| && Owned(s.tasks[run], c, Generation(s, c) + 1) ensures Refuses(t, run, now) {
      assert t.tasks[run].lease == s.tasks[run].lease && t.tasks[run].conversation == c;
    }
  }

  /** A client's request that happens to be called "takeover_2" blocks the takeover of generation 1. */
  lemma UsedIdBlocksTakeover(crash: Option<nat>)
    ensures var c := Made("user", "r");
            var s := Next(Next(Empty(), Creation(c)), Do(Operator(), c, "takeover_2", Send(1, "work"), Plain()));
            && Latest(s, c).Some? && Latest(s, c).value.mode == Delegated
            && TakeoverUi(s, c, false, crash) == (s, Refused("COMMIT_CONFLICT")) && !Refuses(s, 0, 0)
  {
    var c := Made("user", "r");
    var s1 := Next(Empty(), Creation(c));
    CreationRestarts(Empty(), c);
    assert (c, "takeover_2") !in s1.receipts;
    var s2 := Next(s1, Do(Operator(), c, "takeover_2", Send(1, "work"), Plain()));
    assert s2.tasks == [Task(c, Some(Lease("user", true, 1, "takeover_2", Send(1, "work"))), false, false)];
    assert Latest(s2, c) == Latest(s1, c) && (c, "takeover_2") in s2.receipts;
    assert TakeoverId(2) == "takeover_2";
  }

  /** A takeover cut short before its first cancellation leaves a task running that it should have cancelled. */
  lemma CutShortLeavesTask()
    ensures var c := Made("user", "r");
            var s := Next(Next(Empty(), Creation(c)), Do(Operator(), c, "s", Send(1, "work"), Plain()));
            var t := TakeoverUi(s, c, false, Some(0)).0;
            Generation(t, c) == 2 && !Revoked(t, c, 2)
  {
    var c := Made("user", "r");
    var s1 := Next(Empty(), Creation(c));
    CreationRestarts(Empty(), c);
    assert (c, "s") !in s1.receipts;
    var s2 := Next(s1, Do(Operator(), c, "s", Send(1, "work"), Plain()));
    assert s2.tasks == [Task(c, Some(Lease("user", true, 1, "s", Send(1, "work"))), false, false)];
    assert Latest(s2, c) == Latest(s1, c);
    assert s2.receipts.Keys == {(c, "r"), (c, "s")};
    assert TakeoverId(2)[0] == 't';
    TakeoverRevokesIff(s2, c, false, Some(0));
    assert Owned(s2.tasks[0], c, 2);
  }

  // ------------------------------------------------- what each command does

  /** The caller is known to the conversation. */
  predicate Addresses(s: State, actor: Actor, c: ConversationId) {
    Latest(s, c).Some? && (actor.operator || actor.id == Latest(s, c).value.createdBy || actor.id == Latest(s, c).value.controller)
  }

  /** A creation makes a conversation that the controller may use at once, within what it asked for. */
  lemma CreateIff(s: State, actor: Actor, target: ConversationId, requestId: string, revisions: int, seconds: int, env: Env)
    requires (Made(actor.id, requestId), requestId) !in s.receipts
    ensures var c := Made(actor.id, requestId);
            var (t, r) := Execute(s, actor, target, requestId, Create(revisions, seconds), env);
            && (env.accepted && 0 <= revisions <= 20 && 1 <= seconds <= 86_400 <==> r.Ok?)
            && (r.Ok? ==> Latest(t, c) == Some(Config(Delegated, "codex", actor.id, 1, env.now + seconds, revisions))
                          && r == Ok(Settings(Latest(t, c).value)))
            && (!r.Ok? ==> t == s && r == Refused("INVALID_ARGUMENT"))
            && t.tasks == s.tasks && t.draining == s.draining && forall d :: d != c ==> Latest(t, d) == Latest(s, d)
  {
  }

  /** Only the user can delegate a conversation again, from the generation they have seen; it starts a new
      generation with its own budget and time. */
  lemma GrantIff(s: State, actor: Actor, c: ConversationId, requestId: string, expected: nat, revisions: int, seconds: int, env: Env)
    requires (c, requestId) !in s.receipts
    ensures var (t, r) := Execute(s, actor, c, requestId, Grant(expected, revisions, seconds), env);
            && (r.Ok? <==> (actor.operator && Latest(s, c).Some? && expected == Generation(s, c)
                            && 0 <= revisions <= 20 && 1 <= seconds <= 86_400))
            && (r.Ok? ==> var k := Latest(s, c).value;
                Latest(t, c) == Some(Config(Delegated, "codex", k.createdBy, k.generation + 1, env.now + seconds, revisions))
                && r == Ok(Settings(Latest(t, c).value)))
            && (!r.Ok? ==> t == s && r == Refused(
                if !actor.operator then "FORBIDDEN" else if Latest(s, c).None? then "NOT_FOUND"
                else if expected != Generation(s, c) then "STALE_CONTROL" else "INVALID_ARGUMENT"))
            && t.tasks == s.tasks && t.draining == s.draining && forall d :: d != c ==> Latest(t, d) == Latest(s, d)
  {
  }

  /** The first `n` tasks of the conversation that are controlled, unfinished and below the generation were asked
      to stop; every other task is as it was. */
  ghost predicate StoppedBelow(before: seq<Task>, tasks: seq<Task>, c: ConversationId, generation: nat, n: nat) {
    && |tasks| == |before|
    && forall r :: 0 <= r < |before| ==>
         tasks[r] == if && r < n && before[r].conversation == c && before[r].lease.Some?
                        && before[r].lease.value.generation < generation && !before[r].terminal
                     then before[r].(cancelRequested := true) else before[r]
  }

  lemma CancelStops(s: State, c: ConversationId, generation: nat, n: nat)
    ensures StoppedBelow(s.tasks, CancelOwned(s, c, generation, n).tasks, c, generation, n)
  {
  }

  /** A first pause: who may, what it writes, and exactly which tasks it stops. */
  lemma PauseStopsExactly(s: State, actor: Actor, c: ConversationId, requestId: string, expected: nat, env: Env)
    requires (c, requestId) !in s.receipts
    ensures var (t, r) := Execute(s, actor, c, requestId, Pause(expected), env);
            var k := Latest(s, c);
            var allowed := k.Some? && expected == k.value.generation
                           && (actor.operator || (k.value.mode == Delegated && k.value.controller == actor.id));
            && (allowed ==>
                  && Latest(t, c) == Some(k.value.(mode := Paused, generation := expected + 1))
                  && (forall d :: d != c ==> Latest(t, d) == Latest(s, d)) && t.draining == s.draining
                  && StoppedBelow(s.tasks, t.tasks, c, expected + 1, if env.crash.Some? then env.crash.value else |s.tasks|)
                  && r == if env.crash.Some? then Refused("CRASH") else Ok(Settings(Latest(t, c).value)))
            && (!allowed ==> t == s && r == Refused(
                if k.None? then "NOT_FOUND" else if !Addresses(s, actor, c) then "FORBIDDEN"
                else if expected != k.value.generation then "STALE_CONTROL" else "FORBIDDEN"))
  {
    if Latest(s, c).Some? {
      var k := Latest(s, c).value;
      var next := k.(mode := Paused, generation := k.generation + 1);
      var barrier := Written(s, c, requestId, Receipt(actor.id, Pause(expected), Settings(next)), Some(next));
      CancelStops(barrier, c, next.generation, Considered(s, env.crash));
    }
  }

  /** A repeated pause goes on stopping the same tasks, and writes nothing. */
  lemma RepeatedPauseStopsExactly(s: State, actor: Actor, c: ConversationId, requestId: string, expected: nat, k: Config, env: Env)
    requires (c, requestId) in s.receipts && s.receipts[(c, requestId)] == Receipt(actor.id, Pause(expected), Settings(k))
    ensures var (t, r) := Execute(s, actor, c, requestId, Pause(expected), env);
            && t == s.(tasks := t.tasks)
            && StoppedBelow(s.tasks, t.tasks, c, k.generation, if env.crash.Some? then env.crash.value else |s.tasks|)
            && r == if env.crash.Some? then Refused("CRASH") else Ok(Settings(k))
  {
    CancelStops(s, c, k.generation, Considered(s, env.crash));
  }

  /** A takeover stops the same tasks, and leaves a conversation that is not delegated alone. */
  lemma TakeoverStopsExactly(s: State, c: ConversationId, paused: bool, crash: Option<nat>)
    ensures var (t, r) := TakeoverUi(s, c, paused, crash);
            var k := Latest(s, c);
            if k.None? then t == s && r == Refused("NOT_FOUND")
            else if k.value.mode != Delegated then t == s && r == Ok(Settings(k.value))
            else if (c, TakeoverId(k.value.generation + 1)) in s.receipts then t == s && r == Refused("COMMIT_CONFLICT")
            else
              && Latest(t, c) == Some(k.value.(mode := if paused then Paused else Manual, generation := k.value.generation + 1))
              && (forall d :: d != c ==> Latest(t, d) == Latest(s, d)) && t.draining == s.draining
              && StoppedBelow(s.tasks, t.tasks, c, k.value.generation + 1, if crash.Some? then crash.value else |s.tasks|)
              && r == if crash.Some? then Refused("CRASH") else Ok(Settings(Latest(t, c).value))
  {
    if Latest(s, c).Some? {
      var next := TakenOver(Latest(s, c).value, paused);
      var barrier := Written(s, c, TakeoverId(next.generation), Receipt("user", Takeover, Settings(next)), Some(next));
      CancelStops(barrier, c, next.generation, Considered(s, crash));
    }
  }

  /** The generation's delegated budget and time are not used up. */
  ghost predicate MayAutomate(s: State, k: Config, c: ConversationId, now: int) {
    && now < k.expiresAt
    && |set r | 0 <= r < |s.tasks| && s.tasks[r].conversation == c && s.tasks[r].lease.Some?
                && s.tasks[r].lease.value.generation == k.generation| <= k.maxRevisions
  }

  /** A first send: exactly when it is admitted, what it adds, and the code it is refused with otherwise. */
  lemma SendIsAdmittedIff(s: State, actor: Actor, c: ConversationId, requestId: string, expected: nat, text: string, env: Env)
    requires (c, requestId) !in s.receipts
    requires forall i :: 0 <= i < |s.tasks| && s.tasks[i].conversation == c && s.tasks[i].lease.Some? ==>
               s.tasks[i].lease.value.requestId != requestId
    ensures var (t, r) := Execute(s, actor, c, requestId, Send(expected, text), env);
            var k := Latest(s, c);
            var controls := k.Some? && expected == k.value.generation
                            && (actor.operator || (k.value.mode == Delegated && k.value.controller == actor.id));
            var affords := actor.operator || (controls && MayAutomate(s, k.value, c, env.now));
            var admitted := controls && !s.draining && affords && env.accepted;
            && (admitted ==>
                  && t.tasks == s.tasks + [Task(c, Some(Lease(actor.id, actor.operator, expected, requestId, Send(expected, text))), false, false)]
                  && t.configs == s.configs && t.draining == s.draining
                  && t.receipts == (if env.crash.Some? then s.receipts
                                    else s.receipts[(c, requestId) := Receipt(actor.id, Send(expected, text), Admitted(|s.tasks|))])
                  && r == if env.crash.Some? then Refused("CRASH") else Ok(Admitted(|s.tasks|)))
            && (!admitted ==> t == s && r == Refused(
                if k.None? then "NOT_FOUND" else if !Addresses(s, actor, c) then "FORBIDDEN"
                else if expected != k.value.generation then "STALE_CONTROL" else if !controls then "FORBIDDEN"
                else if s.draining then "SERVER_DRAINING" else if !affords then "BUDGET_EXHAUSTED" else "INVALID_ARGUMENT"))
  {
    assert FindItem(s.tasks, c, requestId).None?;
    if Latest(s, c).Some? {
      var g := Latest(s, c).value.generation;
      assert InGeneration(s, c, g) == set r | 0 <= r < |s.tasks| && s.tasks[r].conversation == c && s.tasks[r].lease.Some?
                                              && s.tasks[r].lease.value.generation == g;
    }
  }

  /** The sends of fresh requests, one after the other. */
  function Sends(actor: Actor, c: ConversationId, generation: nat, ids: seq<string>, env: Env): seq<Action> {
    seq(|ids|, i requires 0 <= i < |ids| => Do(actor, c, ids[i], Send(generation, ""), env))
  }

  /** The controller of a delegated conversation gets exactly the budget: of any number of new requests, as many
      are admitted as the budget has left, and the others are refused. */
  lemma {:induction false} BudgetIsUsable(s: State, actor: Actor, c: ConversationId, ids: seq<string>, env: Env)
    requires Latest(s, c).Some? && Latest(s, c).value.mode == Delegated && Latest(s, c).value.controller == actor.id
    requires !actor.operator && !s.draining && env.accepted && env.now < Latest(s, c).value.expiresAt
    requires Distinct(ids) && forall i :: 0 <= i < |ids| ==> NewRequest(s, c, ids[i])
    ensures var k := Latest(s, c).value;
            var left := 1 + k.maxRevisions - |InGeneration(s, c, k.generation)|;
            var t := Run(s, Sends(actor, c, k.generation, ids, env));
            |t.tasks| - |s.tasks| == if left <= 0 then 0 else if left <= |ids| then left else |ids|
    decreases |ids|
  {
    var k := Latest(s, c).value;
    if ids != [] {
      var a := Do(actor, c, ids[0], Send(k.generation, ""), env);
      var t := Next(s, a);
      NewRequestSends(s, actor, c, ids[0], env);
      assert Sends(actor, c, k.generation, ids, env) == [a] + Sends(actor, c, k.generation, ids[1..], env);
      RunCons(s, a, Sends(actor, c, k.generation, ids[1..], env));
      forall i | 0 <= i < |ids[1..]| ensures NewRequest(t, c, ids[1..][i]) { OtherRequestStaysNew(s, a, c, ids[i + 1]); }
      assert Distinct(ids[1..]);
      BudgetIsUsable(t, actor, c, ids[1..], env);
    }
  }

  /** Neither a receipt nor a task names the request. */
  ghost predicate NewRequest(s: State, c: ConversationId, id: string) {
    (c, id) !in s.receipts && forall i :: 0 <= i < |s.tasks| ==> !IsItem(s.tasks[i], c, id)
  }

  lemma NewRequestSends(s: State, actor: Actor, c: ConversationId, id: string, env: Env)
    requires Latest(s, c).Some? && Latest(s, c).value.mode == Delegated && Latest(s, c).value.controller == actor.id
    requires !actor.operator && !s.draining && env.accepted && env.now < Latest(s, c).value.expiresAt && NewRequest(s, c, id)
    ensures var k := Latest(s, c).value;
            var t := Next(s, Do(actor, c, id, Send(k.generation, ""), env));
            var spent := |InGeneration(s, c, k.generation)|;
            && Latest(t, c) == Some(k) && t.draining == s.draining
            && |t.tasks| == |s.tasks| + (if spent <= k.maxRevisions then 1 else 0)
            && |InGeneration(t, c, k.generation)| == spent + (if spent <= k.maxRevisions then 1 else 0)
  {
    var k := Latest(s, c).value;
    var t := Next(s, Do(actor, c, id, Send(k.generation, ""), env));
    SendIsAdmittedIff(s, actor, c, id, k.generation, "", env);
    var spent := InGeneration(s, c, k.generation);
    assert spent == set r | 0 <= r < |s.tasks| && s.tasks[r].conversation == c && s.tasks[r].lease.Some?
                            && s.tasks[r].lease.value.generation == k.generation;
    if |spent| <= k.maxRevisions {
      assert InGeneration(t, c, k.generation) == spent + {|s.tasks|};
    }
  }

  lemma OtherRequestStaysNew(s: State, a: Action, c: ConversationId, id: string)
    requires a.Do? && a.command.Send? && a.target == c && a.requestId != id && NewRequest(s, c, id)
    ensures NewRequest(Next(s, a), c, id)
  {
  }

  /** A dispatch check: a user's task passes unless the service drains, a controlled one only under the current
      delegation; a refused one is asked to stop, unless the service drains, and nothing else changes. */
  lemma DispatchDoes(s: State, run: nat, now: int)
    requires run < |s.tasks|
    ensures Next(s, Dispatch(run, now)) == PermitsDispatch(s, run, now).0
    ensures var (t, allowed) := PermitsDispatch(s, run, now);
            var task, k := s.tasks[run], Latest(s, s.tasks[run].conversation);
            && (allowed <==> (!s.draining && (task.lease.Some? ==>
                  k.Some? && k.value.mode == Delegated && now < k.value.expiresAt
                  && k.value.generation == task.lease.value.generation)))
            && (allowed || s.draining || task.terminal ==> t == s)
            && (!allowed && !s.draining && !task.terminal ==> t == s.(tasks := s.tasks[run := task.(cancelRequested := true)]))
  {
    if s.tasks[run].terminal { assert s.tasks[run := s.tasks[run]] == s.tasks; }
  }

  /** A task that ends, and a service that drains or is activated: nothing else changes. What only the UI does is
      no command. */
  lemma OthersDo(s: State, run: nat, c: ConversationId, actor: Actor, requestId: string, env: Env)
    ensures Execute(s, actor, c, requestId, Takeover, env) == (s, Refused("INVALID_ARGUMENT"))
    ensures Execute(s, actor, c, requestId, ImportUi, env) == (s, Refused("INVALID_ARGUMENT"))
    ensures Next(s, Finish(run)) == if run < |s.tasks| then s.(tasks := s.tasks[run := s.tasks[run].(terminal := true)]) else s
    ensures Next(s, Drain).draining && Next(s, Drain) == s.(draining := true)
    ensures !Next(s, Activate).draining && Next(s, Activate) == s.(draining := false)
    ensures Next(s, UiTask(c)) == s.(tasks := s.tasks + [Task(c, None, false, false)])
  {
  }

  /** A UI session is adopted once, as nobody's delegation. */
  lemma AdoptIff(s: State, c: ConversationId)
    ensures var t := AdoptUi(s, c);
            if Latest(s, c).None? && (c, "import-ui") !in s.receipts
            then Latest(t, c) == Some(Config(Manual, "", "user", 0, 0, 3)) && t.tasks == s.tasks && t.draining == s.draining
                 && (c, "import-ui") in t.receipts && forall d :: d != c ==> Latest(t, d) == Latest(s, d)
            else t == s
  {
  }

  // ------------------------------------------------------- repeated requests

  /** Receipts are written once: whatever happens, what was answered stays recorded as it was. */
  lemma {:induction false} RunKeepsReceipts(s: State, actions: seq<Action>, key: (ConversationId, string))
    requires key in s.receipts
    ensures key in Run(s, actions).receipts && Run(s, actions).receipts[key] == s.receipts[key]
    decreases |actions|
  {
    if actions != [] {
      var m, n := Commits(s, actions[0]);
      assert key in Apply(s, m).receipts && Apply(s, m).receipts[key] == s.receipts[key];
      RunKeepsReceipts(Next(s, actions[0]), actions[1..], key);
    }
  }

  /** The conversation a command is about. */
  function About(actor: Actor, target: ConversationId, requestId: string, command: Command): ConversationId {
    if command.Create? then Made(actor.id, requestId) else target
  }

  lemma AnswerHasReceipt(s: State, actor: Actor, target: ConversationId, requestId: string, command: Command, env: Env)
    requires Execute(s, actor, target, requestId, command, env).1.Ok?
    ensures var (t, r) := Execute(s, actor, target, requestId, command, env);
            var key := (About(actor, target, requestId, command), requestId);
            && !command.Takeover? && !command.ImportUi? && (command.Grant? ==> actor.operator)
            && key in t.receipts && t.receipts[key] == Receipt(actor.id, command, r.result)
  {
  }

  /** Every command that was answered can be repeated after any run: it writes nothing, and is answered as before;
      a pause may then still stop tasks that were left. */
  lemma AnswerIsRepeated(s: State, actor: Actor, target: ConversationId, requestId: string, command: Command, env: Env,
                         between: seq<Action>, again: Env)
    requires Execute(s, actor, target, requestId, command, env).1.Ok?
    ensures var (u, first) := Execute(s, actor, target, requestId, command, env);
            var t := Run(u, between);
            var (v, r) := Execute(t, actor, target, requestId, command, again);
            && v == t.(tasks := v.tasks) && (!command.Pause? ==> v == t)
            && ((command.Pause? && again.crash.Some?) || r == first)
  {
    AnswerHasReceipt(s, actor, target, requestId, command, env);
    var u := Execute(s, actor, target, requestId, command, env).0;
    RunKeepsReceipts(u, between, (About(actor, target, requestId, command), requestId));
  }

  /** An answered request id is taken for good: the same id with another caller or other content is refused. */
  lemma OtherContentIsRefused(s: State, actor: Actor, c: ConversationId, requestId: string, command: Command, env: Env,
                              between: seq<Action>, other: Actor, content: Command, again: Env)
    requires Execute(s, actor, c, requestId, command, env).1.Ok? && !command.Create?
    requires content.Grant? || content.Pause? || content.Send?
    requires (content.Grant? ==> other.operator) && (other.id != actor.id || content != command)
    ensures var t := Run(Execute(s, actor, c, requestId, command, env).0, between);
            Execute(t, other, c, requestId, content, again) == (t, Refused("REQUEST_CONFLICT"))
  {
    AnswerHasReceipt(s, actor, c, requestId, command, env);
    RunKeepsReceipts(Execute(s, actor, c, requestId, command, env).0, between, (c, requestId));
  }

  lemma RepeatAnswers(t: State, actor: Actor, c: ConversationId, requestId: string, command: Command, env: Env, run: nat)
    requires command.Send? && SendReceipts(t) && OnePerRequest(t) && run < |t.tasks| && IsItem(t.tasks[run], c, requestId)
    requires t.tasks[run].lease.value.actor == actor.id && t.tasks[run].lease.value.command == command
    ensures var (u, r) := Execute(t, actor, c, requestId, command, env);
            && u.tasks == t.tasks && u.configs == t.configs && (r.Ok? ==> r.result == Admitted(run))
            && (r.Ok? <==> if (c, requestId) in t.receipts
                           then t.receipts[(c, requestId)].actor == actor.id && t.receipts[(c, requestId)].command == command
                           else Addresses(t, actor, c) && env.crash.None?)
  {
    OnlyItem(t, c, requestId, run);
  }

  /** Repeating a send, after any run whatever and even when its receipt was lost in a crash, admits nothing
      new; when it answers, it answers with the run of the first admission. It always answers if the first did;
      after a crash, exactly when it is not cut short again, its caller is still known to the conversation, and
      no other request has taken the id meanwhile. */
  lemma SendIsIdempotent(s: State, actor: Actor, c: ConversationId, requestId: string, command: Command, env: Env,
                         between: seq<Action>, again: Env)
    requires Requests(s) && command.Send?
    requires |Execute(s, actor, c, requestId, command, env).0.tasks| == |s.tasks| + 1
    ensures var t := Run(Execute(s, actor, c, requestId, command, env).0, between);
            var (u, r) := Execute(t, actor, c, requestId, command, again);
            && u.tasks == t.tasks && u.configs == t.configs && (r.Ok? ==> r.result == Admitted(|s.tasks|))
            && (env.crash.None? ==> r.Ok? && u == t)
            && (r.Ok? <==> if (c, requestId) in t.receipts
                           then t.receipts[(c, requestId)].actor == actor.id && t.receipts[(c, requestId)].command == command
                           else Addresses(t, actor, c) && again.crash.None?)
  {
    var admitted := Execute(s, actor, c, requestId, command, env).0;
    if env.crash.None? { AnswerIsRepeated(s, actor, c, requestId, command, env, between, again); }
    var t := Run(admitted, between);
    AdmissionTerms(s, actor, c, requestId, command, env);
    NextKeepsRequests(s, Do(actor, c, requestId, command, env));
    RunKeepsRequests(admitted, between);
    RunKeepsTasks(admitted, between);
    assert t.tasks[..|admitted.tasks|][|s.tasks|] == t.tasks[|s.tasks|];
    RepeatAnswers(t, actor, c, requestId, command, again, |s.tasks|);
  }

  /** A send whose request was admitted with other content, or for another caller, is refused and changes nothing. */
  lemma OtherSendIsRefused(t: State, actor: Actor, c: ConversationId, requestId: string, command: Command, env: Env, run: nat)
    requires command.Send? && OnePerRequest(t) && run < |t.tasks| && IsItem(t.tasks[run], c, requestId)
    requires (c, requestId) !in t.receipts && Addresses(t, actor, c)
    requires t.tasks[run].lease.value.actor != actor.id || t.tasks[run].lease.value.command != command
    ensures Execute(t, actor, c, requestId, command, env) == (t, Refused("REQUEST_CONFLICT"))
  {
    OnlyItem(t, c, requestId, run);
  }

  /** The admitted task is the one every later lookup and every receipt of that send finds. */
  lemma OnlyItem(t: State, c: ConversationId, requestId: string, run: nat)
    requires OnePerRequest(t) && run < |t.tasks| && IsItem(t.tasks[run], c, requestId)
    ensures FindItem(t.tasks, c, requestId) == Some(run)
    ensures forall q :: 0 <= q < |t.tasks| && IsItem(t.tasks[q], c, requestId) ==> q == run
  {
    forall q | 0 <= q < |t.tasks| && IsItem(t.tasks[q], c, requestId) ensures q == run {
      assert q < run ==> SameRequest(t.tasks[q], t.tasks[run]);
      assert run < q ==> SameRequest(t.tasks[run], t.tasks[q]);
    }
  }

  // ------------------------------------------------------------ the service

  class ControlService {
    var configs: map<ConversationId, seq<Config>>
    var receipts: map<(ConversationId, string), Receipt>
    var tasks: seq<Task>
    var draining: bool

    ghost function View(): State
      reads this
    {
      State(configs, receipts, tasks, draining)
    }

    constructor ()
      ensures View() == Empty() && Good(View())
    {
      configs, receipts, tasks, draining := map[], map[], [], false;
    }

    /** `close`: from here on every dispatch is refused, and what was recorded stays as it is. */
    method Close()
      modifies this`draining
      ensures View() == Next(old(View()), Drain) && (old(Good(View())) ==> Good(View()))
      ensures forall run, now: int :: 0 <= run < |tasks| ==> Refuses(View(), run, now)
    {
      if Good(View()) { NextKeepsGood(View(), Drain); }
      draining := true;
    }

    method Find(c: ConversationId) returns (k: Option<Config>)
      ensures k == Latest(View(), c)
    {
      k := if c in configs && configs[c] != [] then Some(configs[c][|configs[c]| - 1]) else None;
    }

    method Write(c: ConversationId, requestId: string, receipt: Receipt, config: Option<Config>)
      modifies this`configs, this`receipts
      ensures View() == Written(old(View()), c, requestId, receipt, config)
    {
      receipts := receipts[(c, requestId) := receipt];
      if config.Some? {
        configs := configs[c := (if c in configs then configs[c] else []) + [config.value]];
      }
    }

    /** `_cancel_owned`: a pass over all tasks, which the service may not live to finish. */
    method CancelEarlier(c: ConversationId, generation: nat, crash: Option<nat>)
      modifies this`tasks
      ensures View() == CancelOwned(old(View()), c, generation, Considered(old(View()), crash))
    {
      ghost var done := CancelOwned(old(View()), c, generation, Considered(old(View()), crash)).tasks;
      var i := 0;
      while i < |tasks| && (crash.None? || i < crash.value)
        invariant 0 <= i <= |tasks| == |old(tasks)| && (crash.Some? ==> i <= crash.value)
        invariant forall r :: 0 <= r < i ==> tasks[r] == done[r]
        invariant forall r :: i <= r < |tasks| ==> tasks[r] == old(tasks)[r]
      {
        var t := tasks[i];
        if t.conversation == c && t.lease.Some? && t.lease.value.generation < generation && !t.terminal {
          tasks := tasks[i := t.(cancelRequested := true)];
        }
        i := i + 1;
      }
      assert tasks == done;
    }

    method GetItem(c: ConversationId, requestId: string) returns (item: Option<nat>)
      ensures item == FindItem(tasks, c, requestId)
    {
      item := None;
      for i := 0 to |tasks|
        invariant item == FindItem(tasks[..i], c, requestId)
      {
        assert tasks[..i + 1][..i] == tasks[..i];
        if item.None? && IsItem(tasks[i], c, requestId) { item := Some(i); }
      }
      assert tasks[..|tasks|] == tasks;
    }

    method Run(actor: Actor, target: ConversationId, requestId: string, command: Command, env: Env) returns (r: Outcome)
      modifies this
      ensures (View(), r) == Execute(old(View()), actor, target, requestId, command, env)
      ensures old(Requests(View())) ==> Requests(View())
      ensures old(Good(View())) ==>
        (Good(View()) <==> forall c :: !Recreates(old(View()), Do(actor, target, requestId, command, env), c))
    {
      if Requests(View()) { NextKeepsRequests(View(), Do(actor, target, requestId, command, env)); }
      if Good(View()) { NextKeepsGood(View(), Do(actor, target, requestId, command, env)); }
      var c := if command.Create? then Made(actor.id, requestId) else target;
      if command.Takeover? || command.ImportUi? { return Refused("INVALID_ARGUMENT"); }
      if command.Grant? && !actor.operator { return Refused("FORBIDDEN"); }
      if (c, requestId) in receipts {
        var prior := receipts[(c, requestId)];
        if prior.actor != actor.id || prior.command != command { return Refused("REQUEST_CONFLICT"); }
        if command.Pause? && prior.result.Settings? {
          CancelEarlier(c, prior.result.config.generation, env.crash);
          if env.crash.Some? { return Refused("CRASH"); }
        }
        return Ok(prior.result);
      }
      r := Mutate(actor, c, requestId, command, env);
    }

    method Mutate(actor: Actor, c: ConversationId, requestId: string, command: Command, env: Env) returns (r: Outcome)
      requires !command.Takeover? && !command.ImportUi? && (command.Grant? ==> actor.operator)
      requires command.Create? ==> c == Made(actor.id, requestId)
      requires (c, requestId) !in receipts
      modifies this
      ensures (View(), r) == Execute(old(View()), actor, c, requestId, command, env)
    {
      if command.Create? {
        if !env.accepted || !Bounded(command.revisions, command.seconds) { return Refused("INVALID_ARGUMENT"); }
        var k := Config(Delegated, CONTROLLER, actor.id, 1, env.now + command.seconds, command.revisions);
        Write(c, requestId, Receipt(actor.id, command, Settings(k)), Some(k));
        return Ok(Settings(k));
      }
      var latest := Find(c);
      if latest.None? { return Refused("NOT_FOUND"); }
      var k := latest.value;
      if !actor.operator && actor.id !in {k.createdBy, k.controller} { return Refused("FORBIDDEN"); }
      if command.Send? {
        r := SendInput(actor, c, requestId, command, k, env);
        return;
      }
      if !Guard(actor, k, command.expected) { return Refused(GuardError(k, command.expected)); }
      if command.Grant? {
        if !Bounded(command.revisions, command.seconds) { return Refused("INVALID_ARGUMENT"); }
        var next := k.(mode := Delegated, controller := CONTROLLER, generation := k.generation + 1,
                       expiresAt := env.now + command.seconds, maxRevisions := command.revisions);
        Write(c, requestId, Receipt(actor.id, command, Settings(next)), Some(next));
        return Ok(Settings(next));
      }
      var next := k.(mode := Paused, generation := k.generation + 1);
      Write(c, requestId, Receipt(actor.id, command, Settings(next)), Some(next));
      CancelEarlier(c, next.generation, env.crash);
      if env.crash.Some? { return Refused("CRASH"); }
      return Ok(Settings(next));
    }

    method SendInput(actor: Actor, c: ConversationId, requestId: string, command: Command, k: Config, env: Env) returns (r: Outcome)
      requires command.Send?
      modifies this
      ensures (View(), r) == SendMessage(old(View()), actor, c, requestId, command, k, env)
    {
      var run := |tasks|;
      var item := GetItem(c, requestId);
      if item.Some? {
        var lease := tasks[item.value].lease.value;
        if lease.actor != actor.id || lease.command != command { return Refused("REQUEST_CONFLICT"); }
        run := item.value;
      } else {
        if !Guard(actor, k, command.expected) { return Refused(GuardError(k, command.expected)); }
        if draining { return Refused("SERVER_DRAINING"); }
        if !actor.operator && env.now >= k.expiresAt { return Refused("BUDGET_EXHAUSTED"); }
        var used := CountGeneration(c, k.generation);
        if !actor.operator && used >= 1 + k.maxRevisions { return Refused("BUDGET_EXHAUSTED"); }
        if !env.accepted { return Refused("INVALID_ARGUMENT"); }
        tasks := tasks + [Task(c, Some(Lease(actor.id, actor.operator, k.generation, requestId, command)), false, false)];
      }
      if env.crash.Some? { return Refused("CRASH"); }
      Write(c, requestId, Receipt(actor.id, command, Admitted(run)), None);
      return Ok(Admitted(run));
    }

    method CountGeneration(c: ConversationId, generation: nat) returns (n: nat)
      ensures n == |InGeneration(View(), c, generation)|
    {
      n := 0;
      ghost var found: set<nat> := {};
      for i := 0 to |tasks|
        invariant n == |found|
        invariant found == set r | 0 <= r < i && r in InGeneration(View(), c, generation)
      {
        if tasks[i].conversation == c && tasks[i].lease.Some? && tasks[i].lease.value.generation == generation {
          n, found := n + 1, found + {i};
        }
      }
      assert found == InGeneration(View(), c, generation);
    }

    method Takeover(c: ConversationId, paused: bool, crash: Option<nat>) returns (r: Outcome)
      modifies this
      ensures (View(), r) == TakeoverUi(old(View()), c, paused, crash)
      ensures old(Good(View())) ==> Good(View())
    {
      if Good(View()) { TakeoverKeepsGood(View(), c, paused, crash); }
      var latest := Find(c);
      if latest.None? { return Refused("NOT_FOUND"); }
      var k := latest.value;
      if k.mode != Delegated { return Ok(Settings(k)); }
      var next := k.(mode := if paused then Paused else Manual, generation := k.generation + 1);
      if (c, TakeoverId(next.generation)) in receipts { return Refused("COMMIT_CONFLICT"); }
      Write(c, TakeoverId(next.generation), Receipt("user", Command.Takeover, Settings(next)), Some(next));
      CancelEarlier(c, next.generation, crash);
      if crash.Some? { return Refused("CRASH"); }
      return Ok(Settings(next));
    }

    method Permits(run: nat, now: int) returns (allowed: bool)
      requires run < |tasks|
      modifies this`tasks
      ensures (View(), allowed) == PermitsDispatch(old(View()), run, now)
    {
      var t := tasks[run];
      if draining { return false; }
      if t.lease.None? { return true; }
      var latest := Find(t.conversation);
      if latest.None? || latest.value.mode != Delegated || latest.value.generation != t.lease.value.generation
         || now >= latest.value.expiresAt {
        tasks := tasks[run := Cancelled(t)];
        return false;
      }
      return true;
    }
  }
}
