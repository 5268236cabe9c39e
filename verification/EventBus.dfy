/**
 * The in-process event bus: a bounded replay window, one bounded queue per
 * subscriber, and an overflow path that trades old items for a resync marker.
 *
 * The bus holds its lock across `emit`; a consumer thread takes items from its
 * own queue at any time. A `Schedule` says how many items the consumer takes
 * between two consecutive queue operations of one delivery, so a statement for
 * every schedule is a statement for every interleaving.
 */
module EventBus {

  import opened Collections

  datatype Payload = Payload(kind: string, body: string)

  const RESYNC := "resync_required"

  /** A queued item: an event with its SSE id, or the overflow marker (SSE id 0). */
  datatype Item = Live(id: nat, payload: Payload) | Overflow(dropped: nat)

  predicate IsMarker(x: Item) {
    x.Overflow? || x.payload.kind == RESYNC
  }

  /** One subscriber queue; `taken` is what its consumer has received so far. */
  datatype Inbox = Inbox(maxsize: int, queue: seq<Item>, dropped: nat, taken: seq<Item>)

  datatype Schedule = Schedule(first: nat, full: nat, evict: nat -> nat, marker: nat, retry: nat)

  /** Everything the consumer has received or will still receive. */
  function Stream(b: Inbox): seq<Item> {
    b.taken + b.queue
  }

  /** The consumer gets up to `n` items. */
  function Take(b: Inbox, n: nat): (r: Inbox)
    ensures Stream(r) == Stream(b) && r.maxsize == b.maxsize && r.dropped == b.dropped && |r.queue| <= |b.queue|
    decreases n
  {
    if n == 0 || b.queue == [] then b
    else
      assert b.taken + b.queue == (b.taken + [b.queue[0]]) + b.queue[1..];
      Take(b.(taken := b.taken + [b.queue[0]], queue := b.queue[1..]), n - 1)
  }

  predicate Full(b: Inbox) {
    b.maxsize > 0 && |b.queue| >= b.maxsize
  }

  function Limit(b: Inbox): nat {
    if b.maxsize > 0 then b.maxsize else 0
  }

  function DropFirst(b: Inbox): Inbox
    requires b.queue != []
  {
    b.(queue := b.queue[1..], dropped := b.dropped + 1)
  }

  /** `while limit >= 2 and qsize() > limit - 2: get_nowait(); dropped += 1`. */
  function Evict(b: Inbox, takes: nat -> nat, k: nat): Inbox
    decreases |b.queue|
  {
    if Limit(b) < 2 || |b.queue| <= Limit(b) - 2 then b
    else
      var c := Take(b, takes(k));
      if c.queue == [] then c
      else Evict(Take(DropFirst(c), takes(k + 1)), takes, k + 2)
  }

  lemma EvictStep(b: Inbox, takes: nat -> nat, k: nat)
    requires Limit(b) >= 2 && |b.queue| > Limit(b) - 2
    ensures var c := Take(b, takes(k));
            Evict(b, takes, k) == if c.queue == [] then c else Evict(Take(DropFirst(c), takes(k + 1)), takes, k + 2)
  {
  }

  function WithMarker(b: Inbox, item: Item): (r: (Inbox, bool)) {
    if IsMarker(item) then (b, true)
    else if Limit(b) >= 2 && !Full(b) then (b.(queue := b.queue + [Overflow(b.dropped)]), true)
    else (b, false)
  }

  function Retry(b: Inbox, item: Item, pending: nat, marked: bool): Inbox {
    if Full(b) then b.(dropped := pending + 1)
    else b.(queue := b.queue + [item], dropped := if marked || Limit(b) < 2 then 0 else b.dropped)
  }

  /** One delivery to one subscriber under one schedule. */
  function Put(b: Inbox, item: Item, sch: Schedule): Inbox {
    var ready := Take(b, sch.first);
    if !Full(ready) then ready.(queue := ready.queue + [item])
    else Settle(Evict(Take(ready, sch.full), sch.evict, 0), item, sch)
  }

  /** The marker and the second attempt, after eviction. */
  function Settle(evicted: Inbox, item: Item, sch: Schedule): Inbox {
    var (marked, ok) := WithMarker(Take(evicted, sch.marker), item);
    Retry(Take(marked, sch.retry), item, evicted.dropped, ok)
  }

  // ------------------------------------------------------ the replay window

  type Row = (nat, Payload)

  /** The bus: `log` is every payload ever emitted, in order; event `i` is `log[i - 1]`. */
  datatype Bus = Bus(limit: nat, sequence: nat, replay: seq<Row>)

  /** `deque(maxlen=limit).append`. */
  function Append(limit: nat, rows: seq<Row>, row: Row): seq<Row> {
    var all := rows + [row];
    if |all| > limit then all[|all| - limit..] else all
  }

  function Emitted(bus: Bus, p: Payload): Bus {
    Bus(bus.limit, bus.sequence + 1, Append(bus.limit, bus.replay, (bus.sequence + 1, p)))
  }

  datatype Reply = Rows(rows: seq<Row>) | ResyncRequired(cursor: nat, reason: string, dropped: Option<int>)

  function SelectRows(rows: seq<Row>, start: nat, cutoff: nat): seq<Row> {
    if rows == [] then []
    else (if start < rows[0].0 <= cutoff then [rows[0]] else []) + SelectRows(rows[1..], start, cutoff)
  }

  function Start(last: Option<int>): nat {
    if last.None? || last.value < 0 then 0 else last.value
  }

  function Cutoff(bus: Bus, max: Option<int>): nat {
    if max.None? || max.value > bus.sequence then bus.sequence
    else if max.value < 0 then 0 else max.value
  }

  /** `replay_events_after`; an unparsable or boolean argument is `None`. */
  function ReplayAfter(bus: Bus, last: Option<int>, max: Option<int>): Reply {
    var start, cutoff := Start(last), Cutoff(bus, max);
    if start > cutoff then ResyncRequired(cutoff, "sse_cursor_ahead", None)
    else if start > 0 && bus.replay != [] && start + 1 < bus.replay[0].0 then
      ResyncRequired(cutoff, "sse_replay_window_expired", Some(bus.replay[0].0 - start - 1))
    else Rows(SelectRows(bus.replay, start, cutoff))
  }

  /** Rows `lo + 1 .. hi` of the log. */
  function Window(log: seq<Payload>, lo: nat, hi: nat): (w: seq<Row>)
    requires lo <= hi <= |log|
    ensures |w| == hi - lo
    decreases hi - lo
  {
    if lo == hi then [] else [(lo + 1, log[lo])] + Window(log, lo + 1, hi)
  }

  lemma {:induction false} WindowAt(log: seq<Payload>, lo: nat, hi: nat, i: nat)
    requires lo <= hi <= |log| && i < hi - lo
    ensures Window(log, lo, hi)[i] == (lo + i + 1, log[lo + i])
    decreases i
  {
    if i > 0 { WindowAt(log, lo + 1, hi, i - 1); }
  }

  lemma {:induction false} WindowGrows(log: seq<Payload>, lo: nat, p: Payload)
    requires lo <= |log|
    ensures Window(log + [p], lo, |log| + 1) == Window(log, lo, |log|) + [(|log| + 1, p)]
    decreases |log| - lo
  {
    if lo < |log| { WindowGrows(log, lo + 1, p); }
  }

  function Floor(log: seq<Payload>, limit: nat): nat {
    if |log| > limit then |log| - limit else 0
  }

  /** The window always holds exactly the newest `limit` events, contiguously. */
  ghost predicate Retains(bus: Bus, log: seq<Payload>) {
    bus.sequence == |log| && bus.replay == Window(log, Floor(log, bus.limit), |log|)
  }

  lemma EmitRetains(bus: Bus, log: seq<Payload>, p: Payload)
    requires Retains(bus, log)
    ensures Retains(Emitted(bus, p), log + [p])
  {
    var lo := Floor(log, bus.limit);
    var all := bus.replay + [(bus.sequence + 1, p)];
    WindowGrows(log, lo, p);
    if |all| > bus.limit {
      assert all == [(lo + 1, (log + [p])[lo])] + Window(log + [p], lo + 1, |log| + 1);
      assert all[1..] == Window(log + [p], lo + 1, |log| + 1);
    }
  }

  lemma {:induction false} SelectWindow(log: seq<Payload>, lo: nat, hi: nat, start: nat, cutoff: nat)
    requires lo <= hi <= |log| && start <= cutoff
    ensures var a, b := (if start > lo then start else lo), (if cutoff < hi then cutoff else hi);
            SelectRows(Window(log, lo, hi), start, cutoff) == if a <= b then Window(log, a, b) else []
    decreases hi - lo
  {
    if lo < hi {
      SelectCons((lo + 1, log[lo]), Window(log, lo + 1, hi), start, cutoff);
      SelectWindow(log, lo + 1, hi, start, cutoff);
    }
  }

  lemma SelectCons(row: Row, rest: seq<Row>, start: nat, cutoff: nat)
    ensures SelectRows([row] + rest, start, cutoff) ==
            (if start < row.0 <= cutoff then [row] else []) + SelectRows(rest, start, cutoff)
  {
    assert ([row] + rest)[1..] == rest;
  }

  /** An honest answer: one resync marker at the cutoff, or exactly the rows after the cursor. */
  ghost predicate Honest(log: seq<Payload>, start: nat, cutoff: nat, reply: Reply) {
    && cutoff <= |log|
    && match reply
       case ResyncRequired(cursor, _, _) => cursor == cutoff
       case Rows(rows) => start <= cutoff && rows == Window(log, start, cutoff)
  }

  /** Exactly when a reconnecting client can trust the answer. A cursor of 0 is a fresh
      client and never receives the expired-window marker; with no window there is none to give. */
  lemma ReplayHonestIff(bus: Bus, log: seq<Payload>, last: Option<int>, max: Option<int>)
    requires Retains(bus, log)
    ensures var start, cutoff := Start(last), Cutoff(bus, max);
            Honest(log, start, cutoff, ReplayAfter(bus, last, max))
            <==> (start >= cutoff || (bus.limit >= 1 && (start > 0 || |log| <= bus.limit)))
  {
    var start, cutoff := Start(last), Cutoff(bus, max);
    var lo := Floor(log, bus.limit);
    if start <= cutoff {
      SelectWindow(log, lo, |log|, start, cutoff);
    }
  }

  /** The answer itself, at every cursor and cutoff. A cursor the window reaches gets exactly the rows after it;
      one behind the window gets the marker that says how many events are gone, unless it is 0 and gets what is
      left; one past the cutoff is told so. */
  lemma ReplayAnswers(bus: Bus, log: seq<Payload>, last: Option<int>, max: Option<int>)
    requires Retains(bus, log)
    ensures var start, cutoff, floor := Start(last), Cutoff(bus, max), Floor(log, bus.limit);
            var reply := ReplayAfter(bus, last, max);
            && (start > cutoff <==> reply == ResyncRequired(cutoff, "sse_cursor_ahead", None))
            && (bus.limit >= 1 && 0 < start < floor && start <= cutoff <==>
                  reply == ResyncRequired(cutoff, "sse_replay_window_expired", Some(floor - start)))
            && (floor <= start <= cutoff ==> reply == Rows(Window(log, start, cutoff)))
            && (start == 0 || (bus.limit == 0 && start <= cutoff) ==>
                  reply == Rows(if floor <= cutoff then Window(log, floor, cutoff) else []))
  {
    var start, cutoff := Start(last), Cutoff(bus, max);
    WindowStarts(bus, log);
    if start <= cutoff { SelectWindow(log, Floor(log, bus.limit), |log|, start, cutoff); }
  }

  lemma WindowStarts(bus: Bus, log: seq<Payload>)
    requires Retains(bus, log)
    ensures bus.replay == [] <==> log == [] || bus.limit == 0
    ensures bus.replay != [] ==> bus.replay[0].0 == Floor(log, bus.limit) + 1
  {
  }

  /** A cursor is what was given, but never below 0; a cutoff never passes the last event either. */
  lemma CursorsClamped(bus: Bus, last: Option<int>, max: Option<int>)
    ensures last.None? ==> Start(last) == 0
    ensures last.Some? ==> last.value <= Start(last) && (Start(last) > 0 ==> Start(last) == last.value)
    ensures Cutoff(bus, max) <= bus.sequence && (max.None? ==> Cutoff(bus, max) == bus.sequence)
    ensures max.Some? ==> (Cutoff(bus, max) < bus.sequence ==> max.value <= Cutoff(bus, max))
                          && (Cutoff(bus, max) > 0 ==> Cutoff(bus, max) <= max.value)
  {
  }

  // ------------------------------------------------------- delivery streams

  ghost predicate HasId(s: seq<Item>, e: nat) {
    exists i :: 0 <= i < |s| && s[i].Live? && s[i].id == e
  }

  /** Event ids strictly increase along the stream: no duplicate, no reordering. */
  ghost predicate Ascending(s: seq<Item>) {
    forall i, j :: 0 <= i < j < |s| && s[i].Live? && s[j].Live? ==> s[i].id < s[j].id
  }

  /** Every delivered event is an emitted one with its own payload. */
  ghost predicate Genuine(s: seq<Item>, cutoff: nat, log: seq<Payload>) {
    forall i :: 0 <= i < |s| && s[i].Live? ==> cutoff < s[i].id <= |log| && s[i].payload == log[s[i].id - 1]
  }

  /** A marker at `i` stands after every event that is not newer than `e`. */
  ghost predicate CoveredAt(s: seq<Item>, e: nat, i: nat) {
    && i < |s| && IsMarker(s[i])
    && (forall j :: i <= j < |s| && s[j].Live? ==> s[j].id > e)
  }

  ghost predicate Accounted(s: seq<Item>, e: nat) {
    HasId(s, e) || exists i :: CoveredAt(s, e, i)
  }

  /** No silent loss: every event since the subscription is in the stream or covered by a later marker. */
  ghost predicate NoSilentLoss(s: seq<Item>, cutoff: nat, latest: nat) {
    forall e :: cutoff < e <= latest ==> Accounted(s, e)
  }

  ghost predicate Delivery(b: Inbox, cutoff: nat, log: seq<Payload>) {
    var s := Stream(b);
    && Ascending(s)
    && Genuine(s, cutoff, log)
    && NoSilentLoss(s, cutoff, |log|)
    && (|log| > cutoff ==> HasId(s, |log|))
    && (b.maxsize > 0 ==> |b.queue| <= b.maxsize)
  }

  /** Two events and a window of one: a fresh client asks from 0 and is given the second only, with no marker. */
  lemma FreshCursorMisses(p: Payload, q: Payload)
    ensures var bus := Emitted(Emitted(Bus(1, 0, []), p), q);
            && ReplayAfter(bus, Some(0), None) == Rows([(2, q)])
            && !Honest([p, q], 0, 2, ReplayAfter(bus, Some(0), None))
  {
    var bus := Emitted(Emitted(Bus(1, 0, []), p), q);
    assert bus.replay == [(2, q)];
    assert SelectRows([(2, q)], 0, 2) == [(2, q)] + SelectRows([(2, q)][1..], 0, 2);
    assert |Window([p, q], 0, 2)| == 2;
  }

  /** Nothing retained: a client that has seen the first of two events is told there is nothing more. */
  lemma EmptyWindowMisses(p: Payload, q: Payload)
    ensures var bus := Emitted(Emitted(Bus(0, 0, []), p), q);
            ReplayAfter(bus, Some(1), None) == Rows([]) && !Honest([p, q], 1, 2, ReplayAfter(bus, Some(1), None))
  {
    assert |Window([p, q], 1, 2)| == 1;
  }

  /** Eviction leaves room for two and removes items only. */
  lemma {:induction false} EvictKeeps(b: Inbox, takes: nat -> nat, k: nat, cutoff: nat, log: seq<Payload>)
    requires Ascending(Stream(b)) && Genuine(Stream(b), cutoff, log) && b.maxsize >= 2
    ensures var r := Evict(b, takes, k);
            && Ascending(Stream(r)) && Genuine(Stream(r), cutoff, log)
            && r.maxsize == b.maxsize && |r.queue| <= r.maxsize - 2
    decreases |b.queue|
  {
    if |b.queue| > b.maxsize - 2 {
      var c := Take(b, takes(k));
      EvictStep(b, takes, k);
      if c.queue != [] {
        DropKeeps(c, cutoff, log);
        EvictKeeps(Take(DropFirst(c), takes(k + 1)), takes, k + 2, cutoff, log);
      }
    }
  }

  lemma DropKeeps(b: Inbox, cutoff: nat, log: seq<Payload>)
    requires b.queue != [] && Ascending(Stream(b)) && Genuine(Stream(b), cutoff, log)
    ensures Ascending(Stream(DropFirst(b))) && Genuine(Stream(DropFirst(b)), cutoff, log)
  {
    RemoveKeeps(Stream(b), |b.taken|, cutoff, log);
    assert Stream(DropFirst(b)) == Stream(b)[..|b.taken|] + Stream(b)[|b.taken| + 1..];
  }

  lemma RemoveKeeps(s: seq<Item>, i: nat, cutoff: nat, log: seq<Payload>)
    requires i < |s| && Ascending(s) && Genuine(s, cutoff, log)
    ensures var t := s[..i] + s[i + 1..];
            Ascending(t) && Genuine(t, cutoff, log)
  {
    var t := s[..i] + s[i + 1..];
    forall j | 0 <= j < |t| ensures t[j] == s[if j < i then j else j + 1] {}
    forall j, k | 0 <= j < k < |t| && t[j].Live? && t[k].Live? ensures t[j].id < t[k].id {
      assert t[j] == s[if j < i then j else j + 1] && t[k] == s[if k < i then k else k + 1];
    }
  }

  lemma ExtendStream(s: seq<Item>, cutoff: nat, log: seq<Payload>, p: Payload)
    requires Ascending(s) && Genuine(s, cutoff, log) && cutoff <= |log|
    ensures var t := s + [Live(|log| + 1, p)];
            Ascending(t) && Genuine(t, cutoff, log + [p]) && HasId(t, |log| + 1)
  {
    var t := s + [Live(|log| + 1, p)];
    assert t[|s|].id == |log| + 1;
  }

  /** A delivery without overflow keeps every earlier account. */
  lemma AppendAccounts(s: seq<Item>, cutoff: nat, log: seq<Payload>, p: Payload)
    requires NoSilentLoss(s, cutoff, |log|) && cutoff <= |log|
    ensures NoSilentLoss(s + [Live(|log| + 1, p)], cutoff, |log| + 1)
  {
    var t := s + [Live(|log| + 1, p)];
    forall e | cutoff < e <= |log| + 1 ensures Accounted(t, e) {
      assert e <= |log| ==> Accounted(s, e);
      if e == |log| + 1 {
        assert t[|s|].Live? && t[|s|].id == e;
      } else if HasId(s, e) {
        var i :| 0 <= i < |s| && s[i].Live? && s[i].id == e;
        assert t[i].id == e;
      } else {
        var i :| CoveredAt(s, e, i);
        assert CoveredAt(t, e, i);
      }
    }
  }

  /** After an overflow the newest marker accounts for everything lost before it. */
  lemma OverflowAccounts(s: seq<Item>, m: nat, cutoff: nat, latest: nat)
    requires m < |s| && IsMarker(s[m]) && |s| - 2 <= m && s[|s| - 1].Live? && s[|s| - 1].id == latest
    requires m == |s| - 2 ==> s[m].Overflow?
    ensures NoSilentLoss(s, cutoff, latest)
  {
    forall e | cutoff < e <= latest ensures Accounted(s, e) {
      if e < latest {
        assert CoveredAt(s, e, m);
      }
    }
  }

  /** Every delivery, under every schedule, keeps the guarantee of a queue of capacity other than 1. */
  lemma PutDelivers(b: Inbox, cutoff: nat, log: seq<Payload>, p: Payload, sch: Schedule)
    requires Delivery(b, cutoff, log) && cutoff <= |log| && b.maxsize != 1
    ensures Delivery(Put(b, Live(|log| + 1, p), sch), cutoff, log + [p])
  {
    var item := Live(|log| + 1, p);
    var ready := Take(b, sch.first);
    if !Full(ready) {
      ExtendStream(Stream(b), cutoff, log, p);
      AppendAccounts(Stream(b), cutoff, log, p);
      assert Stream(ready.(queue := ready.queue + [item])) == Stream(b) + [item];
    } else {
      OverflowDelivers(Take(ready, sch.full), cutoff, log, p, sch);
    }
  }

  /** The guarantee a bus gives a subscriber: full delivery, unless its capacity is 1. */
  ghost predicate InService(b: Inbox, cutoff: nat, log: seq<Payload>) {
    cutoff <= |log| && (b.maxsize != 1 ==> Delivery(b, cutoff, log))
  }

  lemma PutServes(b: Inbox, cutoff: nat, log: seq<Payload>, p: Payload, sch: Schedule)
    requires InService(b, cutoff, log)
    ensures InService(Put(b, Live(|log| + 1, p), sch), cutoff, log + [p])
  {
    PutKeepsCapacity(b, Live(|log| + 1, p), sch);
    if b.maxsize != 1 {
      PutDelivers(b, cutoff, log, p, sch);
    }
  }

  lemma OverflowDelivers(b: Inbox, cutoff: nat, log: seq<Payload>, p: Payload, sch: Schedule)
    requires Ascending(Stream(b)) && Genuine(Stream(b), cutoff, log) && cutoff <= |log| && b.maxsize >= 2
    ensures Delivery(Settle(Evict(b, sch.evict, 0), Live(|log| + 1, p), sch), cutoff, log + [p])
  {
    EvictKeeps(b, sch.evict, 0, cutoff, log);
    SettleDelivers(Evict(b, sch.evict, 0), cutoff, log, p, sch);
  }

  lemma SettleDelivers(evicted: Inbox, cutoff: nat, log: seq<Payload>, p: Payload, sch: Schedule)
    requires Ascending(Stream(evicted)) && Genuine(Stream(evicted), cutoff, log) && cutoff <= |log|
    requires evicted.maxsize >= 2 && |evicted.queue| <= evicted.maxsize - 2
    ensures Delivery(Settle(evicted, Live(|log| + 1, p), sch), cutoff, log + [p])
  {
    var marker := Marker(evicted, Live(|log| + 1, p));
    SettleStream(evicted, Live(|log| + 1, p), sch);
    MarkerKeeps(Stream(evicted), marker, cutoff, log);
    MarkedStream(Stream(evicted) + marker, cutoff, log, p);
  }

  lemma MarkerKeeps(s: seq<Item>, m: seq<Item>, cutoff: nat, log: seq<Payload>)
    requires Ascending(s) && Genuine(s, cutoff, log) && (m == [] || (|m| == 1 && m[0].Overflow?))
    ensures Ascending(s + m) && Genuine(s + m, cutoff, log)
  {
    assert forall i :: 0 <= i < |s + m| && (s + m)[i].Live? ==> i < |s| && (s + m)[i] == s[i];
  }

  function Marker(evicted: Inbox, item: Item): seq<Item> {
    if IsMarker(item) then [] else [Overflow(evicted.dropped)]
  }

  /** What the two final puts add to the stream. */
  lemma SettleStream(evicted: Inbox, item: Item, sch: Schedule)
    requires evicted.maxsize >= 2 && |evicted.queue| <= evicted.maxsize - 2
    ensures var r := Settle(evicted, item, sch);
            && Stream(r) == Stream(evicted) + Marker(evicted, item) + [item]
            && r.maxsize == evicted.maxsize && |r.queue| <= r.maxsize
  {
    var (marked, ok) := WithMarker(Take(evicted, sch.marker), item);
    assert Stream(marked) == Stream(evicted) + Marker(evicted, item);
    var last := Take(marked, sch.retry);
    assert Stream(last.(queue := last.queue + [item])) == Stream(last) + [item];
  }

  lemma MarkedStream(s: seq<Item>, cutoff: nat, log: seq<Payload>, p: Payload)
    requires Ascending(s) && Genuine(s, cutoff, log) && cutoff <= |log|
    requires p.kind == RESYNC || (s != [] && s[|s| - 1].Overflow?)
    ensures var t := s + [Live(|log| + 1, p)];
            Ascending(t) && Genuine(t, cutoff, log + [p]) && NoSilentLoss(t, cutoff, |log| + 1) && HasId(t, |log| + 1)
  {
    ExtendStream(s, cutoff, log, p);
    OverflowAccounts(s + [Live(|log| + 1, p)], if p.kind == RESYNC then |s| else |s| - 1, cutoff, |log| + 1);
  }

  // ------------------------------------------------------------ what is lost

  /** How many of the departures were discarded, and what the consumer got of the others. */
  function Count(lost: seq<bool>): nat {
    if lost == [] then 0 else (if lost[0] then 1 else 0) + Count(lost[1..])
  }

  function Received(items: seq<Item>, lost: seq<bool>): seq<Item>
    requires |lost| <= |items|
  {
    if lost == [] then [] else (if lost[0] then [] else [items[0]]) + Received(items[1..], lost[1..])
  }

  /** `b` became `c` by departures from the front of the queue alone, the oldest item each time: it was discarded
      where `lost` says so, and taken by the consumer otherwise. */
  ghost predicate Departed(b: Inbox, c: Inbox, lost: seq<bool>) {
    |lost| <= |b.queue|
    && c == Inbox(b.maxsize, b.queue[|lost|..], b.dropped + Count(lost), b.taken + Received(b.queue, lost))
  }

  lemma {:induction false} CountConcat(x: seq<bool>, y: seq<bool>)
    ensures Count(x + y) == Count(x) + Count(y)
  {
    if x == [] {
      assert x + y == y;
    } else {
      CountConcat(x[1..], y);
      assert (x + y)[1..] == x[1..] + y;
    }
  }

  lemma {:induction false} ReceivedConcat(items: seq<Item>, x: seq<bool>, y: seq<bool>)
    requires |x| + |y| <= |items|
    ensures Received(items, x + y) == Received(items, x) + Received(items[|x|..], y)
  {
    if x == [] {
      assert x + y == y && items[|x|..] == items;
    } else {
      ReceivedConcat(items[1..], x[1..], y);
      assert (x + y)[1..] == x[1..] + y && items[1..][|x| - 1..] == items[|x|..];
    }
  }

  lemma DepartedOn(b: Inbox, c: Inbox, d: Inbox, x: seq<bool>, y: seq<bool>)
    requires Departed(b, c, x) && Departed(c, d, y)
    ensures Departed(b, d, x + y) && Count(x + y) == Count(x) + Count(y)
  {
    CountConcat(x, y);
    ReceivedConcat(b.queue, x, y);
    assert b.queue[|x|..][|y|..] == b.queue[|x + y|..];
    assert b.taken + (Received(b.queue, x) + Received(c.queue, y)) == (b.taken + Received(b.queue, x)) + Received(c.queue, y);
  }

  /** The consumer takes as many as it asks for, or all there are, and nothing is lost. */
  lemma {:induction false} TakeDeparts(b: Inbox, n: nat) returns (x: seq<bool>)
    ensures Departed(b, Take(b, n), x) && Count(x) == 0
    ensures |x| == if n <= |b.queue| then n else |b.queue|
    decreases n
  {
    if n == 0 || b.queue == [] {
      x := [];
      assert b.queue[0..] == b.queue;
    } else {
      var c := b.(taken := b.taken + [b.queue[0]], queue := b.queue[1..]);
      OneDeparts(b, false);
      var y := TakeDeparts(c, n - 1);
      DepartedOn(b, c, Take(b, n), [false], y);
      x := [false] + y;
    }
  }

  lemma OneDeparts(b: Inbox, gone: bool)
    requires b.queue != []
    ensures Departed(b, if gone then DropFirst(b) else b.(taken := b.taken + [b.queue[0]], queue := b.queue[1..]), [gone])
    ensures Count([gone]) == if gone then 1 else 0
  {
    assert Count([gone]) == (if gone then 1 else 0) + Count([gone][1..]);
    assert Received(b.queue, [gone]) == (if gone then [] else [b.queue[0]]) + Received(b.queue[1..], [gone][1..]);
  }

  /** Whatever the consumer does meanwhile, eviction discards only the oldest items, and no more of them than are
      above the room it makes. */
  lemma {:induction false} EvictLosesOldest(b: Inbox, takes: nat -> nat, k: nat) returns (lost: seq<bool>)
    requires b.maxsize >= 2
    ensures Departed(b, Evict(b, takes, k), lost)
    ensures Count(lost) <= if |b.queue| > b.maxsize - 2 then |b.queue| - (b.maxsize - 2) else 0
    decreases |b.queue|
  {
    if |b.queue| <= b.maxsize - 2 {
      lost := TakeDeparts(b, 0);
    } else {
      var c := Take(b, takes(k));
      EvictStep(b, takes, k);
      lost := TakeDeparts(b, takes(k));
      if c.queue != [] {
        var y := RoundDeparts(c, takes(k + 1));
        var d := Take(DropFirst(c), takes(k + 1));
        var z := EvictLosesOldest(d, takes, k + 2);
        DepartedOn(b, c, d, lost, y);
        DepartedOn(b, d, Evict(d, takes, k + 2), lost + y, z);
        lost := lost + y + z;
      }
    }
  }

  lemma RoundDeparts(c: Inbox, n: nat) returns (x: seq<bool>)
    requires c.queue != []
    ensures Departed(c, Take(DropFirst(c), n), x) && Count(x) == 1
  {
    OneDeparts(c, true);
    var y := TakeDeparts(DropFirst(c), n);
    DepartedOn(c, DropFirst(c), Take(DropFirst(c), n), [true], y);
    x := [true] + y;
  }

  /** One delivery to a queue of capacity 2 or more, under every schedule. Until a state `c` items leave from the
      front only; then the event is put, behind a marker with the number of discarded items if the first attempt
      found the queue full. Nothing is discarded otherwise, and never more than what was above the room for two. */
  lemma PutLosesOldest(b: Inbox, item: Item, sch: Schedule) returns (c: Inbox, lost: seq<bool>)
    requires b.maxsize >= 2
    ensures Departed(b, c, lost) && c.taken <= Put(b, item, sch).taken && Put(b, item, sch).maxsize == b.maxsize
    ensures |b.queue| - sch.first < b.maxsize ==>
              && Count(lost) == 0 && Put(b, item, sch).dropped == b.dropped
              && Stream(Put(b, item, sch)) == Stream(c) + [item]
    ensures |b.queue| - sch.first >= b.maxsize ==>
              && Count(lost) <= |b.queue| - (b.maxsize - 2) && Put(b, item, sch).dropped == 0
              && Stream(Put(b, item, sch)) == Stream(c) + Marker(c, item) + [item]
  {
    var ready := Take(b, sch.first);
    var x := TakeDeparts(b, sch.first);
    if !Full(ready) {
      c, lost := ready, x;
    } else {
      var y;
      c, y := OverflowLosesOldest(Take(ready, sch.full), item, sch);
      var w := TakeDeparts(ready, sch.full);
      DepartedOn(b, ready, Take(ready, sch.full), x, w);
      DepartedOn(b, Take(ready, sch.full), c, x + w, y);
      lost := x + w + y;
    }
  }

  lemma OverflowLosesOldest(b: Inbox, item: Item, sch: Schedule) returns (c: Inbox, lost: seq<bool>)
    requires b.maxsize >= 2
    ensures var r := Settle(Evict(b, sch.evict, 0), item, sch);
            && Departed(b, c, lost) && c.taken <= r.taken && r.maxsize == b.maxsize && r.dropped == 0
            && Count(lost) <= (if |b.queue| > b.maxsize - 2 then |b.queue| - (b.maxsize - 2) else 0)
            && Stream(r) == Stream(c) + Marker(c, item) + [item]
  {
    c := Evict(b, sch.evict, 0);
    lost := EvictLosesOldest(b, sch.evict, 0);
    EvictMakesRoom(b, sch.evict, 0);
    SettleStream(c, item, sch);
    SettleTakes(c, item, sch);
  }

  /** A marker, where there is one, says how many items were discarded since the last one. */
  lemma MarkerCounts(b: Inbox, c: Inbox, lost: seq<bool>, item: Item)
    requires Departed(b, c, lost)
    ensures Marker(c, item) == if IsMarker(item) then [] else [Overflow(b.dropped + Count(lost))]
  {
  }

  lemma {:induction false} EvictMakesRoom(b: Inbox, takes: nat -> nat, k: nat)
    requires b.maxsize >= 2
    ensures |Evict(b, takes, k).queue| <= b.maxsize - 2 && Evict(b, takes, k).maxsize == b.maxsize
    decreases |b.queue|
  {
    if |b.queue| > b.maxsize - 2 {
      var c := Take(b, takes(k));
      EvictStep(b, takes, k);
      if c.queue != [] { EvictMakesRoom(Take(DropFirst(c), takes(k + 1)), takes, k + 2); }
    }
  }

  lemma SettleTakes(evicted: Inbox, item: Item, sch: Schedule)
    requires evicted.maxsize >= 2 && |evicted.queue| <= evicted.maxsize - 2
    ensures evicted.taken <= Settle(evicted, item, sch).taken && Settle(evicted, item, sch).dropped == 0
  {
    var marked := WithMarker(Take(evicted, sch.marker), item).0;
    var x := TakeDeparts(evicted, sch.marker);
    var y := TakeDeparts(marked, sch.retry);
  }

  /** With an idle consumer and a full queue: the two oldest items make room, and the marker counts them. */
  lemma IdleOverflow(b: Inbox, item: Item)
    requires b.maxsize >= 2 && |b.queue| == b.maxsize && !IsMarker(item)
    ensures Put(b, item, Schedule(0, 0, _ => 0, 0, 0)) ==
            Inbox(b.maxsize, b.queue[2..] + [Overflow(b.dropped + 2), item], 0, b.taken)
  {
    var idle: nat -> nat := _ => 0;
    var c := DropFirst(b);
    EvictStep(b, idle, 0);
    EvictStep(c, idle, 2);
    assert Evict(b, idle, 0) == DropFirst(c) == b.(queue := b.queue[2..], dropped := b.dropped + 2);
    assert (b.queue[2..] + [Overflow(b.dropped + 2)]) + [item] == b.queue[2..] + [Overflow(b.dropped + 2), item];
  }

  /** A queue of any other capacity discards nothing that is queued. It has no room for a marker either: at
      capacity 1 the event itself is lost, and counted, exactly when the consumer empties the queue too late. */
  lemma SmallPut(b: Inbox, item: Item, sch: Schedule)
    requires b.maxsize <= 1
    ensures var takes := sch.first + sch.full + sch.marker + sch.retry;
            var accepted := b.maxsize <= 0 || |b.queue| - takes < 1;
            var r := Put(b, item, sch);
            && Stream(r) == Stream(b) + (if accepted then [item] else []) && b.taken <= r.taken
            && r.dropped == if b.maxsize <= 0 || |b.queue| - sch.first < 1 then b.dropped
                            else if accepted then 0 else b.dropped + 1
  {
    var ready := Take(b, sch.first);
    var w := TakeDeparts(b, sch.first);
    if Full(ready) {
      var x := TakeDeparts(ready, sch.full);
      assert Evict(Take(ready, sch.full), sch.evict, 0) == Take(ready, sch.full);
      SmallSettle(Take(ready, sch.full), item, sch);
    }
  }

  lemma SmallSettle(full: Inbox, item: Item, sch: Schedule)
    requires full.maxsize == 1
    ensures var accepted := |full.queue| - (sch.marker + sch.retry) < 1;
            var r := Settle(full, item, sch);
            && Stream(r) == Stream(full) + (if accepted then [item] else []) && full.taken <= r.taken
            && r.dropped == if accepted then 0 else full.dropped + 1
  {
    var marked := Take(full, sch.marker);
    var x := TakeDeparts(full, sch.marker);
    assert WithMarker(marked, item).0 == marked;
    SmallRetry(marked, item, sch.retry, full.dropped, WithMarker(marked, item).1);
  }

  lemma SmallRetry(b: Inbox, item: Item, takes: nat, pending: nat, marked: bool)
    requires b.maxsize == 1
    ensures var accepted := |b.queue| - takes < 1;
            var r := Retry(Take(b, takes), item, pending, marked);
            && Stream(r) == Stream(b) + (if accepted then [item] else []) && b.taken <= r.taken
            && r.dropped == if accepted then 0 else pending + 1
  {
    var last := Take(b, takes);
    var x := TakeDeparts(b, takes);
    assert Stream(last.(queue := last.queue + [item])) == Stream(last) + [item];
  }

  // ------------------------------------------------------------ whole runs

  /** A bus seen together with one of its subscribers. */
  datatype System = System(bus: Bus, log: seq<Payload>, cutoff: nat, inbox: Inbox)

  datatype Step = Emit(payload: Payload, schedule: Schedule) | Get(count: nat)

  function Subscribed(bus: Bus, log: seq<Payload>, maxsize: int): System {
    System(bus, log, bus.sequence, Inbox(maxsize, [], 0, []))
  }

  function Next(x: System, step: Step): System {
    match step
    case Get(n) => x.(inbox := Take(x.inbox, n))
    case Emit(p, sch) =>
      System(Emitted(x.bus, p), x.log + [p], x.cutoff, Put(x.inbox, Live(x.bus.sequence + 1, p), sch))
  }

  function Run(x: System, steps: seq<Step>): System
    decreases |steps|
  {
    if steps == [] then x else Run(Next(x, steps[0]), steps[1..])
  }

  ghost predicate Sound(x: System) {
    Retains(x.bus, x.log) && x.cutoff <= |x.log| && Delivery(x.inbox, x.cutoff, x.log)
  }

  lemma NextSound(x: System, step: Step)
    requires Sound(x) && x.inbox.maxsize != 1
    ensures Sound(Next(x, step)) && Next(x, step).inbox.maxsize == x.inbox.maxsize
  {
    match step {
      case Get(_) =>
      case Emit(p, sch) => EmitKeepsSound(x, p, sch);
    }
  }

  lemma EmitKeepsSound(x: System, p: Payload, sch: Schedule)
    requires Sound(x) && x.inbox.maxsize != 1
    ensures var t := System(Emitted(x.bus, p), x.log + [p], x.cutoff, Put(x.inbox, Live(x.bus.sequence + 1, p), sch));
            Sound(t) && t.inbox.maxsize == x.inbox.maxsize
  {
    var inbox := Put(x.inbox, Live(|x.log| + 1, p), sch);
    assert Delivery(inbox, x.cutoff, x.log + [p]) by { PutDelivers(x.inbox, x.cutoff, x.log, p, sch); }
    assert inbox.maxsize == x.inbox.maxsize by { PutKeepsCapacity(x.inbox, Live(|x.log| + 1, p), sch); }
    EmitSound(x, p, inbox);
  }

  lemma EmitSound(x: System, p: Payload, inbox: Inbox)
    requires Sound(x) && Delivery(inbox, x.cutoff, x.log + [p])
    ensures Sound(System(Emitted(x.bus, p), x.log + [p], x.cutoff, inbox))
  {
    EmitRetains(x.bus, x.log, p);
  }

  /** Every run of emits and gets, under every schedule, keeps window and delivery intact. */
  lemma {:induction false} RunSound(x: System, steps: seq<Step>)
    requires Sound(x) && x.inbox.maxsize != 1
    ensures Sound(Run(x, steps)) && Run(x, steps).inbox.maxsize == x.inbox.maxsize
    ensures Run(x, steps).cutoff == x.cutoff && x.log <= Run(x, steps).log && Run(x, steps).bus.limit == x.bus.limit
    decreases |steps|
  {
    if steps != [] {
      NextSound(x, steps[0]);
      RunSound(Next(x, steps[0]), steps[1..]);
    }
  }

  lemma PutKeepsCapacity(b: Inbox, item: Item, sch: Schedule)
    ensures Put(b, item, sch).maxsize == b.maxsize
  {
    EvictKeepsCapacity(Take(Take(b, sch.first), sch.full), sch.evict, 0);
  }

  lemma {:induction false} EvictKeepsCapacity(b: Inbox, takes: nat -> nat, k: nat)
    ensures Evict(b, takes, k).maxsize == b.maxsize
    decreases |b.queue|
  {
    if Limit(b) >= 2 && |b.queue| > Limit(b) - 2 {
      var c := Take(b, takes(k));
      if c.queue != [] {
        EvictKeepsCapacity(Take(DropFirst(c), takes(k + 1)), takes, k + 2);
      }
    }
  }

  ghost predicate NeverLosesSilently(maxsize: int) {
    forall limit: nat, steps: seq<Step> {:trigger Run(Subscribed(Bus(limit, 0, []), [], maxsize), steps)} ::
      var x := Run(Subscribed(Bus(limit, 0, []), [], maxsize), steps);
      NoSilentLoss(Stream(x.inbox), x.cutoff, |x.log|)
  }

  /** Which capacities are safe: every one except 1, where neither eviction nor a marker is possible. */
  lemma SafeCapacities(maxsize: int)
    ensures NeverLosesSilently(maxsize) <==> maxsize != 1
  {
    if maxsize == 1 {
      var x := CapacityOneLoses();
    } else {
      forall limit: nat, steps: seq<Step>
        ensures var x := Run(Subscribed(Bus(limit, 0, []), [], maxsize), steps);
                NoSilentLoss(Stream(x.inbox), x.cutoff, |x.log|)
      {
        var x := Subscribed(Bus(limit, 0, []), [], maxsize);
        assert Retains(x.bus, []);
        RunSound(x, steps);
      }
    }
  }

  /** Two emits to an idle consumer with capacity 1: the second is dropped and nothing says so. */
  lemma CapacityOneLoses() returns (x: System)
    ensures !NeverLosesSilently(1)
    ensures Stream(x.inbox) == [Live(1, Payload("turn", "a"))] && |x.log| == 2
  {
    var idle := Schedule(0, 0, _ => 0, 0, 0);
    var first, second := Emit(Payload("turn", "a"), idle), Emit(Payload("turn", "b"), idle);
    var start := Subscribed(Bus(1, 0, []), [], 1);
    var mid := Next(start, first);
    assert mid.inbox == Inbox(1, [Live(1, Payload("turn", "a"))], 0, []);
    x := Next(mid, second);
    assert [first, second][1..] == [second];
    assert Run(mid, [second]) == Run(x, [second][1..]) == x;
    assert Run(start, [first, second]) == x;
    assert !Accounted(Stream(x.inbox), 2);
  }

  // ------------------------------------------------------ reconnecting clients

  function AsItems(reply: Reply): seq<Item> {
    match reply
    case Rows(rows) => seq(|rows|, i requires 0 <= i < |rows| => Live(rows[i].0, rows[i].1))
    case ResyncRequired(_, _, _) => [Overflow(0)]
  }

  /**
   * Reconnection with `Last-Event-ID`: subscribe, later ask for the replay up to
   * the subscription's cutoff, later still read on. For any cursor above 0, any
   * interleaving and any two later moments, the replay answer followed by the
   * live stream holds each event after the cursor exactly once, or a resync
   * marker that stands after everything it could be missing.
   */
  lemma ReconnectLosesNothing(x: System, maxsize: int, early: seq<Step>, late: seq<Step>, last: int)
    requires Retains(x.bus, x.log) && x.bus.limit >= 1 && maxsize != 1 && last > 0
    ensures var asked := Run(Subscribed(x.bus, x.log, maxsize), early);
            var now := Run(asked, late);
            var seen := AsItems(ReplayAfter(asked.bus, Some(last), Some(asked.cutoff))) + Stream(now.inbox);
            Ascending(seen) && NoSilentLoss(seen, last, |now.log|)
  {
    var start := Subscribed(x.bus, x.log, maxsize);
    RunSound(start, early);
    var asked := Run(start, early);
    RunSound(asked, late);
    var now := Run(asked, late);
    var reply := ReplayAfter(asked.bus, Some(last), Some(asked.cutoff));
    ReplayHonestIff(asked.bus, asked.log, Some(last), Some(asked.cutoff));
    Splice(asked.log, now.log, last, asked.cutoff, reply, Stream(now.inbox));
  }

  lemma Splice(early: seq<Payload>, late: seq<Payload>, last: nat, cutoff: nat, reply: Reply, live: seq<Item>)
    requires cutoff <= |early| && early <= late && Honest(early, last, cutoff, reply)
    requires reply.ResyncRequired? || last <= cutoff
    requires Ascending(live) && Genuine(live, cutoff, late) && NoSilentLoss(live, cutoff, |late|)
    ensures Ascending(AsItems(reply) + live) && NoSilentLoss(AsItems(reply) + live, last, |late|)
  {
    var head := AsItems(reply);
    var s := head + live;
    forall i | 0 <= i < |head| && reply.Rows? ensures head[i] == Live(last + i + 1, early[last + i]) {
      WindowAt(early, last, cutoff, i);
    }
    forall e | last < e <= |late| ensures Accounted(s, e) {
      assert e > cutoff ==> Accounted(live, e);
      if e <= cutoff {
        if reply.Rows? {
          assert s[e - last - 1].Live? && s[e - last - 1].id == e;
        } else {
          assert CoveredAt(s, e, 0);
        }
      } else if HasId(live, e) {
        var i :| 0 <= i < |live| && live[i].Live? && live[i].id == e;
        assert s[|head| + i].id == e;
      } else {
        var i :| CoveredAt(live, e, i);
        assert CoveredAt(s, e, |head| + i);
      }
    }
  }

  /** With no marker on the way, the client has every event after its cursor. */
  lemma NoMarkerNoGap(s: seq<Item>, cutoff: nat, latest: nat)
    requires NoSilentLoss(s, cutoff, latest) && forall i :: 0 <= i < |s| ==> !IsMarker(s[i])
    ensures forall e :: cutoff < e <= latest ==> HasId(s, e)
  {
    forall e | cutoff < e <= latest ensures HasId(s, e) {
      assert Accounted(s, e);
    }
  }

  // ------------------------------------------------------------ the objects

  class EventSubscriber {
    const maxsize: int
    var queue: seq<Item>
    var dropped: nat
    var replayCutoff: nat
    ghost var taken: seq<Item>

    ghost function View(): Inbox
      reads this
    {
      Inbox(maxsize, queue, dropped, taken)
    }

    constructor (maxsize: int)
      ensures View() == Inbox(maxsize, [], 0, []) && this.maxsize == maxsize && replayCutoff == 0
    {
      this.maxsize := maxsize;
      queue, dropped, replayCutoff, taken := [], 0, 0, [];
    }

    /** The consumer thread gets up to `n` items. */
    method ConsumerRuns(n: nat)
      modifies this`queue, this`taken
      ensures View() == Take(old(View()), n)
    {
      var left := n;
      while left > 0 && queue != []
        invariant Take(View(), left) == Take(old(View()), n)
      {
        taken := taken + [queue[0]];
        queue := queue[1..];
        left := left - 1;
      }
    }

    /** The emitter discards the oldest item. */
    method GetNowait()
      requires queue != []
      modifies this`queue, this`dropped
      ensures View() == DropFirst(old(View()))
    {
      queue := queue[1..];
      dropped := dropped + 1;
    }

    method PutNowait(item: Item) returns (ok: bool)
      modifies this`queue
      ensures ok == !old(Full(View()))
      ensures View() == if ok then old(View()).(queue := old(queue) + [item]) else old(View())
    {
      ok := !(maxsize > 0 && |queue| >= maxsize);
      if ok { queue := queue + [item]; }
    }
  }

  class EventBus {
    const replayLimit: nat
    var sequence: nat
    var replay: seq<Row>
    var subscribers: seq<EventSubscriber>
    ghost var log: seq<Payload>

    ghost function View(): Bus
      reads this
    {
      Bus(replayLimit, sequence, replay)
    }

    /** The object invariant, with the guarantee of every safe subscriber. */
    ghost predicate Valid()
      reads this, subscribers
    {
      && Retains(View(), log)
      && (forall i, j :: 0 <= i < j < |subscribers| ==> subscribers[i] != subscribers[j])
      && (forall i :: 0 <= i < |subscribers| ==> Served(subscribers[i]))
    }

    ghost predicate Served(sub: EventSubscriber)
      reads this, sub
    {
      InService(sub.View(), sub.replayCutoff, log)
    }

    constructor (replayLimit: nat)
      ensures Valid() && this.replayLimit == replayLimit && log == [] && subscribers == []
    {
      this.replayLimit := replayLimit;
      sequence, replay, subscribers, log := 0, [], [], [];
    }

    method Emit(payload: Payload, schedules: nat -> Schedule)
      requires Valid()
      modifies this`sequence, this`replay, this`log, subscribers
      ensures Valid() && View() == Emitted(old(View()), payload) && log == old(log) + [payload]
      ensures forall i :: 0 <= i < |subscribers| ==>
        && subscribers[i].View() == Put(old(subscribers[i].View()), Live(sequence, payload), schedules(i))
        && subscribers[i].replayCutoff == old(subscribers[i].replayCutoff)
    {
      ghost var before := log;
      Record(payload);
      assert forall j :: 0 <= j < |subscribers| ==> InService(subscribers[j].View(), subscribers[j].replayCutoff, before) by {
        assert forall j :: 0 <= j < |subscribers| ==> old(Served(subscribers[j]));
      }
      Deliver(payload, schedules, before);
    }

    /** Hands the event just recorded to everyone, whoever was served up to the event before it. */
    method Deliver(payload: Payload, schedules: nat -> Schedule, ghost before: seq<Payload>)
      requires log == before + [payload] && sequence == |log|
      requires forall i, j :: 0 <= i < j < |subscribers| ==> subscribers[i] != subscribers[j]
      requires forall i :: 0 <= i < |subscribers| ==>
        InService(subscribers[i].View(), subscribers[i].replayCutoff, before)
      modifies subscribers
      ensures forall i :: 0 <= i < |subscribers| ==> Served(subscribers[i])
      ensures forall i :: 0 <= i < |subscribers| ==>
        && subscribers[i].View() == Put(old(subscribers[i].View()), Live(sequence, payload), schedules(i))
        && subscribers[i].replayCutoff == old(subscribers[i].replayCutoff)
    {
      Broadcast(Live(sequence, payload), schedules);
      forall j | 0 <= j < |subscribers| ensures Served(subscribers[j]) {
        ghost var sub := subscribers[j];
        PutServes(old(sub.View()), sub.replayCutoff, before, payload, schedules(j));
      }
    }

    method Record(payload: Payload)
      requires Retains(View(), log)
      modifies this`sequence, this`replay, this`log
      ensures View() == Emitted(old(View()), payload) && log == old(log) + [payload] && Retains(View(), log)
    {
      EmitRetains(View(), log, payload);
      sequence := sequence + 1;
      replay := replay + [(sequence, payload)];
      if |replay| > replayLimit {
        replay := replay[|replay| - replayLimit..];
      }
      log := log + [payload];
    }

    method Broadcast(item: Item, schedules: nat -> Schedule)
      requires item.Live?
      requires forall i, j :: 0 <= i < j < |subscribers| ==> subscribers[i] != subscribers[j]
      modifies subscribers
      ensures forall i :: 0 <= i < |subscribers| ==>
        && subscribers[i].View() == Put(old(subscribers[i].View()), item, schedules(i))
        && subscribers[i].replayCutoff == old(subscribers[i].replayCutoff)
    {
      var i := 0;
      while i < |subscribers|
        invariant 0 <= i <= |subscribers|
        invariant forall j :: i <= j < |subscribers| ==>
          subscribers[j].View() == old(subscribers[j].View()) && subscribers[j].replayCutoff == old(subscribers[j].replayCutoff)
        invariant forall j :: 0 <= j < i ==>
          && subscribers[j].View() == Put(old(subscribers[j].View()), item, schedules(j))
          && subscribers[j].replayCutoff == old(subscribers[j].replayCutoff)
      {
        PutForSubscriber(subscribers[i], item, schedules(i));
        i := i + 1;
      }
    }

    static method PutForSubscriber(sub: EventSubscriber, item: Item, sch: Schedule)
      requires item.Live?
      modifies sub`queue, sub`dropped, sub`taken
      ensures sub.View() == Put(old(sub.View()), item, sch)
    {
      sub.ConsumerRuns(sch.first);
      var ok := sub.PutNowait(item);
      if !ok {
        sub.ConsumerRuns(sch.full);
        EvictOldest(sub, sch.evict);
        MarkAndRetry(sub, item, sch);
      }
    }

    /** Makes room for the marker and the event. */
    static method EvictOldest(sub: EventSubscriber, takes: nat -> nat)
      modifies sub`queue, sub`dropped, sub`taken
      ensures sub.View() == Evict(old(sub.View()), takes, 0)
    {
      var limit := if sub.maxsize > 0 then sub.maxsize else 0;
      var k := 0;
      while limit >= 2 && |sub.queue| > limit - 2
        invariant Evict(sub.View(), takes, k) == Evict(old(sub.View()), takes, 0)
        decreases |sub.queue|
      {
        EvictStep(sub.View(), takes, k);
        sub.ConsumerRuns(takes(k));
        if sub.queue == [] { break; }
        sub.GetNowait();
        sub.ConsumerRuns(takes(k + 1));
        k := k + 2;
      }
    }

    static method MarkAndRetry(sub: EventSubscriber, item: Item, sch: Schedule)
      requires item.Live?
      modifies sub`queue, sub`dropped, sub`taken
      ensures sub.View() == Settle(old(sub.View()), item, sch)
    {
      var limit := if sub.maxsize > 0 then sub.maxsize else 0;
      var pending := sub.dropped;
      var marked := item.payload.kind == RESYNC;
      sub.ConsumerRuns(sch.marker);
      if limit >= 2 && !marked {
        marked := sub.PutNowait(Overflow(pending));
      }
      sub.ConsumerRuns(sch.retry);
      var ok := sub.PutNowait(item);
      if !ok {
        sub.dropped := pending + 1;
        return;
      }
      if marked || limit < 2 || item.payload.kind == RESYNC {
        sub.dropped := 0;
      }
    }

    method Subscribe(maxsize: int) returns (sub: EventSubscriber)
      requires Valid()
      modifies this`subscribers
      ensures Valid() && fresh(sub) && subscribers == old(subscribers) + [sub]
      ensures sub.maxsize == maxsize && sub.replayCutoff == sequence && sub.View() == Inbox(maxsize, [], 0, [])
    {
      sub := new EventSubscriber(maxsize);
      sub.replayCutoff := sequence;
      assert Served(sub);
      subscribers := subscribers + [sub];
      assert forall i :: 0 <= i < |old(subscribers)| ==> subscribers[i] == old(subscribers[i]) && Served(subscribers[i]);
    }

    method Unsubscribe(sub: EventSubscriber)
      requires Valid()
      modifies this`subscribers
      ensures Valid() && sub !in subscribers
      ensures if sub !in old(subscribers) then subscribers == old(subscribers)
              else exists i :: 0 <= i < |old(subscribers)| && old(subscribers)[i] == sub && subscribers == Without(old(subscribers), i)
    {
      if sub in subscribers {
        var i := 0;
        while subscribers[i] != sub
          invariant 0 <= i < |subscribers| && sub in subscribers[i..]
          decreases |subscribers| - i
        {
          i := i + 1;
        }
        ghost var all := subscribers;
        var rest := Without(subscribers, i);
        assert forall j :: 0 <= j < |rest| ==> rest[j] == all[if j < i then j else j + 1];
        assert forall j :: 0 <= j < |all| && j != i ==> all[j] == rest[if j < i then j else j - 1];
        subscribers := rest;
      }
    }

    method Retained(start: nat, cutoff: nat) returns (rows: seq<Row>)
      ensures rows == SelectRows(replay, start, cutoff)
    {
      rows := [];
      for i := 0 to |replay|
        invariant SelectRows(replay, start, cutoff) == rows + SelectRows(replay[i..], start, cutoff)
      {
        SelectCons(replay[i], replay[i + 1..], start, cutoff);
        assert replay[i..] == [replay[i]] + replay[i + 1..];
        if start < replay[i].0 <= cutoff { rows := rows + [replay[i]]; }
      }
    }

    method ReplayEventsAfter(last: Option<int>, max: Option<int>) returns (reply: Reply)
      ensures reply == ReplayAfter(View(), last, max)
    {
      var start := if last.None? || last.value < 0 then 0 else last.value;
      var cutoff := if max.None? || max.value > sequence then sequence else if max.value < 0 then 0 else max.value;
      var rows := Retained(start, cutoff);
      if start > cutoff {
        return ResyncRequired(cutoff, "sse_cursor_ahead", None);
      }
      if start > 0 && replay != [] && start + 1 < replay[0].0 {
        return ResyncRequired(cutoff, "sse_replay_window_expired", Some(replay[0].0 - start - 1));
      }
      return Rows(rows);
    }
  }
}
