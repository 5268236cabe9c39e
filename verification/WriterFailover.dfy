/**
 * The Writer failover runner: attempts share one turn budget, a failed provider
 * is closed and replaced by one that was not tried, and switches are bounded
 * over the life of the runner.
 *
 * The callbacks the runner is given are a `World`: their answers at each moment,
 * a moment being the number of callbacks made so far. `raises` says at which
 * moments a callback fails that nothing catches.
 */
module WriterFailover {

  import opened Collections

  datatype Attempt = Succeeds(turns: nat) | ProviderFails(seen: nat, stopped: bool) | Raises

  datatype Connect = Connected | ConnectCancelled | ConnectFails

  datatype Canary = NotNeeded | Passes | Refused

  datatype World = World(
    attempt: (nat, nat) -> Attempt,
    connect: nat -> Connect,
    canary: nat -> Canary,
    select: (nat, set<string>) -> Option<string>,
    raises: nat -> bool)

  /** What the selection promises: it never repeats a provider that was tried. */
  ghost predicate SelectsFresh(w: World) {
    forall now, tried :: w.select(now, tried).Some? ==> w.select(now, tried).value !in tried
  }

  /** Every attempt stays within the turns it was given. Nothing relies on it but the bound on charges. */
  ghost predicate StaysWithin(w: World) {
    forall now, turns ::
      match w.attempt(now, turns)
      case Succeeds(n) => n <= turns
      case ProviderFails(n, _) => n <= turns
      case Raises => true
  }

  datatype Outcome = Finished(turns: int) | Cancelled | Failed(who: string) | Raised

  function Sum(s: seq<nat>): nat {
    if s == [] then 0 else Sum(s[..|s| - 1]) + s[|s| - 1]
  }

  lemma SumPush(s: seq<nat>, x: nat)
    ensures Sum(s + [x]) == Sum(s) + x
  {
    assert (s + [x])[..|s|] == s;
  }

  /** The turns each attempt was offered, and what each finished attempt was charged. */
  datatype Book = Book(grants: seq<nat>, charges: seq<nat>)

  /** The i-th attempt is offered exactly what the budget has left, and at least one turn. */
  ghost predicate Offers(book: Book, budget: int, i: nat)
    requires i < |book.grants| && i <= |book.charges|
  {
    && book.grants[i] >= 1 && (i > 0 ==> Sum(book.charges[..i]) < budget)
    && (budget >= 1 ==> Sum(book.charges[..i]) + book.grants[i] == budget)
  }

  /** Every attempt got at least one turn, exactly what the budget had left; a further attempt was made only
      while turns were left; and if attempts stay within their turns, so do all charges together. */
  ghost predicate Fair(book: Book, budget: int, within: bool) {
    && |book.charges| <= |book.grants| <= |book.charges| + 1
    && (forall i :: 0 <= i < |book.grants| ==> Offers(book, budget, i))
    && (within ==> forall i :: 0 <= i < |book.charges| ==> book.charges[i] <= book.grants[i])
    && (within && budget >= 1 ==> Sum(book.charges) <= budget)
  }

  /** Between attempts: everything offered has been charged, and turns are left. */
  ghost predicate Between(book: Book, budget: int, used: nat, within: bool) {
    && Fair(book, budget, within) && |book.grants| == |book.charges| && used == Sum(book.charges)
    && (book.charges != [] ==> 0 < used < budget)
  }

  function Offered(budget: int, used: nat): nat {
    if budget - used >= 1 then budget - used else 1
  }

  lemma Grant(book: Book, budget: int, used: nat, within: bool)
    requires Between(book, budget, used, within)
    ensures Fair(book.(grants := book.grants + [Offered(budget, used)]), budget, within)
  {
    var after := book.(grants := book.grants + [Offered(budget, used)]);
    assert book.charges[..|book.charges|] == book.charges;
    forall i | 0 <= i < |after.grants| ensures Offers(after, budget, i) {
      if i < |book.grants| { assert Offers(book, budget, i); }
    }
  }

  lemma Charge(book: Book, budget: int, charge: nat, within: bool)
    requires |book.grants| == |book.charges| + 1 && Fair(book, budget, within)
    requires within ==> charge <= book.grants[|book.charges|]
    ensures Fair(book.(charges := book.charges + [charge]), budget, within)
    ensures Sum(book.charges + [charge]) == Sum(book.charges) + charge
  {
    var charges := book.charges;
    SumPush(charges, charge);
    assert charges[..|charges|] == charges;
    var after := book.(charges := charges + [charge]);
    forall i | 0 <= i < |after.grants| ensures Offers(after, budget, i) {
      assert Offers(book, budget, i) && after.charges[..i] == charges[..i];
    }
    assert Offers(book, budget, |charges|);
  }

  /** The book after an attempt that was offered what is left and charged `charge`. */
  ghost function Entered(book: Book, budget: int, used: nat, charge: nat): Book {
    Book(book.grants + [Offered(budget, used)], book.charges + [charge])
  }

  lemma Enters(book: Book, budget: int, used: nat, charge: nat, within: bool)
    requires Between(book, budget, used, within) && (within ==> charge <= Offered(budget, used))
    ensures var after := Entered(book, budget, used, charge);
            && Fair(after, budget, within) && Sum(after.charges) == used + charge
            && (0 < used + charge < budget ==> Between(after, budget, used + charge, within))
  {
    Grant(book, budget, used, within);
    Charge(book.(grants := book.grants + [Offered(budget, used)]), budget, charge, within);
  }

  class Runner {
    const maxSwitches: nat
    const world: World
    var provider: Option<nat>
    var providerId: string
    var switches: nat
    var tried: set<string>
    var calls: nat
    /** Ledgers: handles opened and closed, and the providers switched to. */
    ghost var connected: seq<nat>
    ghost var closed: seq<nat>
    ghost var targets: seq<string>

    ghost predicate Valid()
      reads this
    {
      && SelectsFresh(world)
      && Distinct(connected) && (forall i :: 0 <= i < |connected| ==> connected[i] < calls)
      && Distinct(closed)
      && (forall h :: h in closed ==> h in connected)
      && (forall h :: h in connected ==> h in closed || provider == Some(h))
      && (provider.Some? ==> provider.value in connected && provider.value !in closed)
      && Distinct(targets) && (forall id :: id in targets ==> id in tried)
    }

    constructor (world: World, provider: Option<nat>, providerId: string, switches: nat, tried: set<string>, maxSwitches: nat)
      requires SelectsFresh(world)
      ensures Valid() && targets == [] && closed == [] && connected == if provider.Some? then [provider.value] else []
      ensures this.world == world && this.provider == provider && this.providerId == providerId
      ensures this.switches == switches && this.tried == tried && this.maxSwitches == maxSwitches
    {
      this.world, this.provider, this.providerId, this.switches := world, provider, providerId, switches;
      this.tried, this.maxSwitches := tried, maxSwitches;
      calls := if provider.Some? then provider.value + 1 else 0;
      connected := if provider.Some? then [provider.value] else [];
      closed, targets := [], [];
    }

    /** A handle is named by the moment it was opened. */
    method Open() returns (r: Connect)
      requires Valid() && provider == None
      modifies this`provider, this`calls, this`connected
      ensures Valid() && (provider.Some? <==> r == Connected)
      ensures connected == if r == Connected then old(connected) + [old(calls)] else old(connected)
      ensures r == world.connect(old(calls)) && calls == old(calls) + 1 && (r == Connected ==> provider == Some(old(calls)))
    {
      r := world.connect(calls);
      if r == Connected {
        connected := connected + [calls];
        provider := Some(calls);
      }
      calls := calls + 1;
    }

    /** A callback that is not expected to raise: recording, clearing, notifying, selecting, the canary, the
        checkpoint. */
    method Callback() returns (ok: bool)
      requires Valid()
      modifies this`calls
      ensures Valid() && ok == !world.raises(old(calls)) && calls == old(calls) + 1
    {
      ok := !world.raises(calls);
      calls := calls + 1;
    }

    method CloseCurrent()
      requires Valid()
      modifies this`provider, this`closed
      ensures Valid() && provider == None
      ensures closed == if old(provider).Some? then old(closed) + [old(provider).value] else old(closed)
    {
      if provider.Some? { closed := closed + [provider.value]; }
      provider := None;
    }

    /** Since a moment at which the provider was `id0`: switches stay within bounds, each one went to a new
        target, the provider is the last target when there was one, and beside the targets only `id0` may have
        been marked as tried. */
    ghost predicate Moved(calls0: nat, switches0: nat, targets0: seq<string>, tried0: set<string>, id0: string)
      reads this
    {
      && calls0 <= calls && switches0 <= switches && (switches <= maxSwitches || switches == switches0)
      && targets0 <= targets && |targets| - |targets0| == switches - switches0
      && tried0 <= tried && (forall id :: id in tried ==> id in tried0 || id in targets || id == id0)
      && providerId == if switches == switches0 then id0 else targets[|targets| - 1]
    }

    method SwitchTo(next: string)
      requires Valid() && next !in tried
      modifies this`providerId, this`tried, this`switches, this`targets
      ensures Valid() && providerId == next && tried == old(tried) + {next}
      ensures switches == old(switches) + 1 && targets == old(targets) + [next]
    {
      providerId := next;
      tried := tried + {next};
      switches := switches + 1;
      targets := targets + [next];
    }

    /** What makes a candidate that was connected at moment `h` ready: no callback after it raised, and its
        canary was not refused. */
    ghost predicate Healthy(h: nat) {
      world.connect(h) == Connected && !world.raises(h + 1) && world.canary(h + 2) != Refused && !world.raises(h + 3)
    }

    /** Nothing is left to try: the switches are used up, or the selection has just answered none. */
    ghost predicate Exhausted()
      reads this
    {
      switches >= maxSwitches || world.select(calls, tried).None?
    }

    /** What a search for a provider can end in, and why: `Finished(0)` with one that is ready; without any when
        it failed, which it may only when nothing is left to try, or was cancelled while connecting; or where it
        was, when the last callback raised. */
    ghost predicate Searched(r: Outcome)
      reads this
    {
      match r
      case Finished(turns) => turns == 0 && provider.Some? && Healthy(provider.value)
      case Cancelled => provider == None && calls > 0 && world.connect(calls - 1) == ConnectCancelled
      case Failed(who) => provider == None && who in tried && Exhausted()
      case Raised => calls > 0 && world.raises(calls - 1)
    }

    /** Selects, connects and canaries the next healthy provider. */
    method ActivateNext(origin: string) returns (r: Outcome)
      requires Valid() && provider == None && switches < maxSwitches && origin in tried
      modifies this
      ensures Valid() && Moved(old(calls), old(switches), old(targets), old(tried), old(providerId))
      ensures old(closed) <= closed && Searched(r)
      ensures provider.Some? ==> old(switches) < switches
      ensures r.Failed? ==> r.who == origin || r.who == providerId
    {
      r := Raised;
      var again := true;
      while again
        invariant Valid() && Moved(old(calls), old(switches), old(targets), old(tried), old(providerId)) && old(closed) <= closed
        invariant if again then provider == None && switches < maxSwitches && origin in tried else Searched(r)
        invariant provider.Some? ==> old(switches) < switches
        invariant r.Failed? ==> r.who == origin || r.who == providerId
        decreases again, maxSwitches - switches
      {
        r, again := TryCandidate(origin);
      }
    }

    /** One candidate, by what each callback does; `again` asks for another. */
    method TryCandidate(origin: string) returns (r: Outcome, again: bool)
      requires Valid() && provider == None && switches < maxSwitches && origin in tried
      modifies this
      ensures Valid() && Moved(old(calls), old(switches), old(targets), old(tried), old(providerId)) && old(closed) <= closed
      ensures if again then provider == None && old(switches) < switches < maxSwitches else Searched(r)
      ensures provider.Some? ==> old(switches) < switches
      ensures r.Failed? ==> r.who == origin || r.who == providerId
      ensures var next := world.select(old(calls) + 1, old(tried));
              if world.raises(old(calls)) then r == Raised && switches == old(switches)
              else if next.None? then r == Failed(origin) && !again && switches == old(switches)
              else switches == old(switches) + 1 && providerId == next.value
      ensures switches > old(switches) ==>
                if world.raises(old(calls) + 1) then r == Raised && !again else Connects(old(calls) + 2, origin, r, again)
    {
      r, again := Raised, false;
      var selecting := Callback();
      if !selecting { return; }
      var next := world.select(calls, tried);
      if next.None? { return Failed(origin), false; }
      SwitchTo(next.value);
      var announced := Callback();
      if !announced { return; }
      r, again := ConnectCandidate(origin);
    }

    /** What connecting a candidate at moment `h` leads to. */
    ghost predicate Connects(h: nat, origin: string, r: Outcome, again: bool)
      reads this
    {
      match world.connect(h)
      case ConnectCancelled => r == Cancelled && !again
      case ConnectFails =>
        if world.raises(h + 1) then r == Raised && !again
        else r == Failed(providerId) && (again <==> switches < maxSwitches)
      case Connected =>
        if !world.raises(h + 1) && world.canary(h + 2) == Refused then
          r == Failed(origin) && h in closed && (again <==> switches < maxSwitches)
        else !again && r == if Healthy(h) then Finished(0) else Raised
    }

    /** Connects and canaries the candidate just switched to. */
    method ConnectCandidate(origin: string) returns (r: Outcome, again: bool)
      requires Valid() && provider == None && switches <= maxSwitches && origin in tried && providerId in tried
      modifies this`provider, this`calls, this`connected, this`closed
      ensures Valid() && old(calls) < calls && old(closed) <= closed
      ensures if again then provider == None && switches < maxSwitches else Searched(r)
      ensures Connects(old(calls), origin, r, again)
      ensures r.Failed? ==> r.who == origin || r.who == providerId
    {
      r, again := Raised, false;
      var c := Open();
      if c == ConnectCancelled { return Cancelled, false; }
      if c == ConnectFails {
        var recorded := Callback();
        if recorded { r, again := Failed(providerId), switches < maxSwitches; }
        return;
      }
      var healthy, raised := Probe();
      if raised { return; }
      if healthy { return Finished(0), false; }
      CloseCurrent();
      assert closed[|closed| - 1] == old(calls);
      return Failed(origin), switches < maxSwitches;
    }

    /** The canary, if one is needed, and the refreshed checkpoint; the handle stays open when either raises. */
    method Probe() returns (healthy: bool, raised: bool)
      requires Valid()
      modifies this`calls
      ensures Valid() && calls > old(calls)
      ensures var refused := world.canary(old(calls) + 1) == Refused;
              && (raised <==> world.raises(old(calls)) || (!refused && world.raises(old(calls) + 2)))
              && (healthy <==> !raised && !refused)
              && (raised ==> world.raises(calls - 1))
    {
      healthy := false;
      var probing := Callback();
      if !probing { return false, true; }
      var canary := world.canary(calls);
      calls := calls + 1;
      if canary == Refused { return false, false; }
      var refreshed := Callback();
      return refreshed, !refreshed;
    }

    /** Reconnects a provider that was closed between calls. */
    method InitialReconnect() returns (r: Outcome)
      requires Valid() && provider == None
      modifies this
      ensures Valid() && Moved(old(calls), old(switches), old(targets), old(tried), old(providerId))
      ensures if world.connect(old(calls)) == Connected
              then r == Finished(0) && provider == Some(old(calls)) && switches == old(switches)
              else Searched(r) && (provider.Some? ==> old(switches) < switches)
      ensures world.connect(old(calls)) == ConnectFails && r.Failed? ==> old(providerId) in tried
    {
      var c := Open();
      if c == Connected { return Finished(0); }
      if c == ConnectCancelled { return Cancelled; }
      var recorded := Callback();
      if !recorded { return Raised; }
      tried := tried + {providerId};
      if switches >= maxSwitches { return Failed(providerId); }
      r := ActivateNext(providerId);
    }

    method CallAttempt(remaining: nat) returns (a: Attempt)
      requires Valid()
      modifies this`calls
      ensures Valid() && calls == old(calls) + 1
      ensures a == world.attempt(old(calls), remaining)
      ensures StaysWithin(world) ==> (a.Succeeds? ==> a.turns <= remaining) && (a.ProviderFails? ==> a.seen <= remaining)
    {
      a := world.attempt(calls, remaining);
      calls := calls + 1;
    }

    /** Closes the failed provider and activates another; it may give up only when the turns are spent or nothing
        is left to try. */
    method ReplaceProvider(exhausted: bool) returns (r: Outcome)
      requires Valid() && provider.Some?
      modifies this
      ensures Valid() && Moved(old(calls), old(switches), old(targets), old(tried), old(providerId))
      ensures if exhausted then r == Raised || r == Failed(old(providerId)) else Searched(r)
      ensures exhausted ==> switches == old(switches) && (r.Failed? ==> provider == None)
      ensures r == Finished(0) ==> old(switches) < switches <= maxSwitches
      ensures r == Raised ==> world.raises(calls - 1)
      ensures world.raises(old(calls)) ==>
        r == Raised && provider == old(provider) && closed == old(closed) && tried == old(tried) && switches == old(switches)
      ensures !world.raises(old(calls)) ==>
        && old(providerId) in tried && old(closed) + [old(provider).value] <= closed
        && (exhausted ==> r == Failed(old(providerId)))
    {
      var recorded := Callback();
      if !recorded { return Raised; }
      CloseCurrent();
      tried := tried + {providerId};
      if switches >= maxSwitches || exhausted { return Failed(providerId); }
      r := ActivateNext(providerId);
    }

    /** One attempt, and the replacement of a provider that failed. */
    method TryOnce(budget: int, used: nat, ghost book: Book) returns (r: Outcome, more: bool, spent: nat, ghost after: Book)
      requires Valid() && provider.Some? && Between(book, budget, used, StaysWithin(world))
      modifies this
      ensures Valid() && Moved(old(calls), old(switches), old(targets), old(tried), old(providerId))
      ensures Fair(after, budget, StaysWithin(world)) && |after.grants| == |book.grants| + 1
      ensures more ==> Replaced(old(switches)) && Between(after, budget, spent, StaysWithin(world))
      ensures !more ==> Ended(r, after, budget)
      ensures var a := world.attempt(old(calls), Offered(budget, used));
              if a.ProviderFails? && !a.stopped then
                && spent == used + (if a.seen >= 1 then a.seen else 1) && !(!more && r.Finished?)
                && (!world.raises(old(calls) + 1) ==> old(providerId) in tried && old(provider).value in closed)
              else
                && !more && spent == used + (if a.Succeeds? then a.turns else 0)
                && (if a.Succeeds? then (if world.raises(old(calls) + 1) then r == Raised else r.Finished?)
                    else r == if a.Raises? then Raised else Cancelled)
                && provider == old(provider) && switches == old(switches) && tried == old(tried) && closed == old(closed)
    {
      var a := CallAttempt(Offered(budget, used));
      if a.ProviderFails? && !a.stopped {
        r, more, spent, after := SettleFailure(budget, used, if a.seen >= 1 then a.seen else 1, book, StaysWithin(world));
      } else {
        more := false;
        r, spent, after := Report(a, budget, used, book);
      }
    }

    /** Ends the run with what its last attempt answered, when that was no failure of the provider. */
    method Report(a: Attempt, budget: int, used: nat, ghost book: Book) returns (r: Outcome, spent: nat, ghost after: Book)
      requires Valid() && provider.Some? && Between(book, budget, used, StaysWithin(world))
      requires calls > 0 && a == world.attempt(calls - 1, Offered(budget, used)) && (a.ProviderFails? ==> a.stopped)
      requires StaysWithin(world) && a.Succeeds? ==> a.turns <= Offered(budget, used)
      modifies this`calls
      ensures Valid() && old(calls) <= calls && Ended(r, after, budget)
      ensures Fair(after, budget, StaysWithin(world)) && |after.grants| == |book.grants| + 1
      ensures spent == used + (if a.Succeeds? then a.turns else 0)
      ensures if a.Succeeds? then (if world.raises(old(calls)) then r == Raised else r.Finished?)
              else r == if a.Raises? then Raised else Cancelled
    {
      r, spent, after := Conclude(a, budget, used, book, StaysWithin(world));
      if a.Succeeds? {
        var recorded := Callback();
        if !recorded { r := Raised; }
      }
    }

    /** An attempt that ends the run: it succeeded, was stopped or raised something else. */
    static method Conclude(a: Attempt, budget: int, used: nat, ghost book: Book, ghost within: bool)
      returns (r: Outcome, spent: nat, ghost after: Book)
      requires Between(book, budget, used, within) && (a.ProviderFails? ==> a.stopped)
      requires within && a.Succeeds? ==> a.turns <= Offered(budget, used)
      ensures Fair(after, budget, within)
      ensures |after.grants| == |book.grants| + 1 && after.grants[|book.grants|] == Offered(budget, used)
      ensures a.Succeeds? ==> spent == used + a.turns == Sum(after.charges)
      ensures a.Succeeds? ==> r == Finished(if spent <= budget then spent else budget)
      ensures !a.Succeeds? ==> spent == used && r == if a.Raises? then Raised else Cancelled
    {
      if a.Succeeds? {
        Enters(book, budget, used, a.turns, within);
        spent, after := used + a.turns, Entered(book, budget, used, a.turns);
        r := Finished(if spent <= budget then spent else budget);
      } else {
        Grant(book, budget, used, within);
        spent, after := used, book.(grants := book.grants + [Offered(budget, used)]);
        r := if a.Raises? then Raised else Cancelled;
      }
    }

    /** A provider failure: its turns are charged and the provider is replaced. */
    method SettleFailure(budget: int, used: nat, charge: nat, ghost book: Book, ghost within: bool)
      returns (r: Outcome, more: bool, spent: nat, ghost after: Book)
      requires Valid() && provider.Some? && Between(book, budget, used, within)
      requires charge >= 1 && (within ==> charge <= Offered(budget, used))
      modifies this
      ensures Valid() && Moved(old(calls), old(switches), old(targets), old(tried), old(providerId))
      ensures spent == used + charge && after == Entered(book, budget, used, charge) && Fair(after, budget, within)
      ensures more ==> Replaced(old(switches)) && Between(after, budget, spent, within)
      ensures !more ==> !r.Finished? && Ended(r, after, budget)
      ensures !world.raises(old(calls)) ==> old(providerId) in tried && old(provider).value in closed
    {
      spent := used + charge;
      Enters(book, budget, used, charge, within);
      after := Entered(book, budget, used, charge);
      ghost var n := |closed|;
      r := ReplaceProvider(spent >= budget);
      assert !world.raises(old(calls)) ==> closed[n] == old(provider).value;
      more := r == Finished(0);
    }

    /** A healthy provider has taken over. */
    ghost predicate Replaced(switches0: nat)
      reads this
    {
      provider.Some? && Healthy(provider.value) && switches0 < switches <= maxSwitches
    }

    /** How a run may end. It finishes when its last attempt succeeded; it fails only when its turns are spent or
        nothing is left to try; it is cancelled when its last attempt was stopped or a connection cancelled, and
        raises when its last callback or attempt did. */
    ghost predicate Ended(r: Outcome, book: Book, budget: int)
      reads this
    {
      match r
      case Finished(turns) => provider.Some? && turns == if Sum(book.charges) <= budget then Sum(book.charges) else budget
      case Failed(who) => who in tried && provider == None && (Sum(book.charges) >= budget || Exhausted())
      case Cancelled =>
        && calls > 0
        && (world.connect(calls - 1) == ConnectCancelled
            || (book.grants != [] && LastAttempt(book).ProviderFails? && LastAttempt(book).stopped))
      case Raised => calls > 0 && (world.raises(calls - 1) || (book.grants != [] && LastAttempt(book).Raises?))
    }

    /** What the last callback answered, if it was the attempt with the turns offered last. */
    ghost function LastAttempt(book: Book): Attempt
      requires calls > 0 && book.grants != []
      reads this
    {
      world.attempt(calls - 1, book.grants[|book.grants| - 1])
    }

    /** One Writer run; the book records what its attempts were offered and charged. The provider it finishes
        with was healthy when it took over, or is the first one, reconnected if it was closed. */
    method Run(budget: int) returns (r: Outcome, ghost book: Book)
      requires Valid()
      modifies this
      ensures Valid() && Moved(old(calls), old(switches), old(targets), old(tried), old(providerId))
      ensures Fair(book, budget, StaysWithin(world)) && |book.grants| <= 1 + switches - old(switches)
      ensures Ended(r, book, budget)
      ensures StaysWithin(world) && budget >= 1 && r.Finished? ==> r.turns == Sum(book.charges)
      ensures budget < 1 ==> |book.grants| <= 1
      ensures r.Failed? ==> forall h :: h in connected ==> h in closed
      ensures r.Finished? ==> if switches > old(switches) then Healthy(provider.value)
                              else provider == if old(provider).Some? then old(provider) else Some(old(calls))
    {
      r, book := Raised, Book([], []);
      if provider == None {
        r := InitialReconnect();
        if r != Finished(0) { return; }
      }
      assert switches > old(switches) ==> Healthy(provider.value);
      r, book := Attempts(budget);
      assert |book.grants| > 1 ==> Offers(book, budget, 1);
    }

    /** Attempts until one ends the run. */
    method Attempts(budget: int) returns (r: Outcome, ghost book: Book)
      requires Valid() && provider.Some?
      modifies this
      ensures Valid() && Moved(old(calls), old(switches), old(targets), old(tried), old(providerId))
      ensures Fair(book, budget, StaysWithin(world)) && |book.grants| <= 1 + switches - old(switches)
      ensures Ended(r, book, budget)
      ensures r.Finished? ==> if switches > old(switches) then Healthy(provider.value) else provider == old(provider)
    {
      r, book := Raised, Book([], []);
      var used, more := 0, true;
      while more
        invariant Valid() && Moved(old(calls), old(switches), old(targets), old(tried), old(providerId))
        invariant Fair(book, budget, StaysWithin(world))
        invariant |book.grants| <= switches - old(switches) + if more then 0 else 1
        invariant if more then provider.Some? && Between(book, budget, used, StaysWithin(world)) else Ended(r, book, budget)
        invariant provider.Some? && (more || r.Finished?) ==>
          if switches > old(switches) then Healthy(provider.value) else provider == old(provider)
        decreases more, maxSwitches - switches
      {
        r, more, used, book := TryOnce(budget, used, book);
      }
    }
  }
}
