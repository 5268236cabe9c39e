/**
 * Materialising legacy chat rows: rows with the same type and identity are
 * folded into the position of the first, keeping the latest stream revision.
 */
module Rescue {

  import opened Collections
  import Texts = Text

  /** A JSON scalar of a message field. */
  datatype Value = Null | Flag(on: bool) | Number(n: int) | Text(s: string)

  type Message = map<string, Value>

  function Str(v: Value): string {
    match v
    case Null => "None"
    case Flag(on) => if on then "True" else "False"
    case Number(n) => if n < 0 then "-" + Texts.Decimal(-n) else Texts.Decimal(n)
    case Text(s) => s
  }

  predicate Truthy(v: Value) {
    match v
    case Null => false
    case Flag(on) => on
    case Number(n) => n != 0
    case Text(s) => s != ""
  }

  function Get(m: Message, key: string): Value {
    if key in m then m[key] else Null
  }

  function Identity(m: Message): string {
    if Truthy(Get(m, "streamId")) then "stream:" + Str(m["streamId"])
    else if Truthy(Get(m, "id")) then Str(m["id"])
    else if Truthy(Get(m, "eventKey")) then Str(m["eventKey"])
    else ""
  }

  type Key = (string, string)

  function KeyOf(m: Message): Key {
    (Str(Get(m, "type")), Identity(m))
  }

  /** `int(value or 0)`; `parse` is Python's `int` on text, and `None` is its ValueError. */
  function Sequence(m: Message, parse: string -> Option<int>): Option<int> {
    match Get(m, "streamSequence")
    case Null => Some(0)
    case Flag(on) => Some(if on then 1 else 0)
    case Number(n) => Some(n)
    case Text(s) => if s == "" then Some(0) else parse(s)
  }

  /** `{**previous, **message}`. */
  function Merge(previous: Message, message: Message): Message {
    previous + message
  }

  /** Numbers are shown in decimal, with a sign when negative and no leading zero, and so read back. */
  lemma NumbersReadBack(n: int)
    ensures var text := Str(Number(n));
            var digits := if n < 0 && text != "" then text[1..] else text;
            && (n < 0 ==> text != "" && text[0] == '-') && Texts.Reading(digits) == (if n < 0 then -n else n)
            && digits != "" && (forall i :: 0 <= i < |digits| ==> '0' <= digits[i] <= '9') && (n != 0 ==> digits[0] != '0')
  {
    var size := if n < 0 then -n else n;
    Texts.DecimalReads(size);
    assert n < 0 ==> Str(Number(n))[1..] == Texts.Decimal(size);
  }

  /** Python's `str`, truth and `int(value or 0)`: exactly `None`, `False`, 0 and the empty text are falsy, which
      counts as 0. */
  lemma ScalarsAsInPython(v: Value, parse: string -> Option<int>)
    ensures Str(Null) == "None" && Str(Flag(true)) == "True" && Str(Flag(false)) == "False" && (v.Text? ==> Str(v) == v.s)
    ensures !Truthy(v) <==> v == Null || v == Flag(false) || v == Number(0) || v == Text("")
    ensures var m: Message := map["streamSequence" := v];
            && (!Truthy(v) ==> Sequence(m, parse) == Some(0))
            && (Truthy(v) ==> Sequence(m, parse) == match v
                  case Flag(_) => Some(1)
                  case Number(n) => Some(n)
                  case Text(s) => parse(s)
                  case Null => None)
    ensures Sequence(map[], parse) == Some(0)
  {
    var m: Message := map["streamSequence" := v];
    assert Get(m, "streamSequence") == v;
  }

  // --------------------------------------------------------------- merging

  /** The rows for which a merge loses the identity both had: the newer row blanks the stream id and
      carries no `id`, so an older `id` shows through. */
  predicate Uncovers(previous: Message, message: Message) {
    && "streamId" in message && !Truthy(message["streamId"]) && "id" !in message
    && Truthy(Get(previous, "streamId")) && Truthy(Get(previous, "id"))
    && Str(previous["id"]) != Identity(previous)
  }

  /** Merging two rows of one identity keeps it exactly when nothing is uncovered. */
  lemma MergeKeepsIdentityIff(previous: Message, message: Message)
    requires Identity(previous) == Identity(message) != ""
    ensures Identity(Merge(previous, message)) == Identity(previous) <==> !Uncovers(previous, message)
  {
  }

  lemma MergeKeepsType(previous: Message, message: Message)
    requires Str(Get(previous, "type")) == Str(Get(message, "type"))
    ensures Str(Get(Merge(previous, message), "type")) == Str(Get(previous, "type"))
  {
  }

  /** The two rows of the exceptional family: the same identity before, another one after. */
  lemma UncoveringExample()
    ensures var a: Message := map["streamId" := Text("a"), "id" := Text("z")];
            var b: Message := map["streamId" := Null, "eventKey" := Text("stream:a")];
            Identity(a) == Identity(b) == "stream:a" && Identity(Merge(a, b)) == "z"
  {
  }

  /** A merge carries the larger sequence exactly when the newer row states one or the older is not negative. */
  lemma MergeKeepsMaximumIff(previous: Message, message: Message, parse: string -> Option<int>)
    requires Sequence(previous, parse).Some? && Sequence(message, parse).Some?
    requires Sequence(message, parse).value >= Sequence(previous, parse).value
    ensures Sequence(Merge(previous, message), parse) == Sequence(message, parse)
      <==> "streamSequence" in message || Sequence(previous, parse).value >= 0
  {
  }

  /** A merge has every field of either row, and the newer row's value where both have one. */
  lemma MergeTakesNewer(previous: Message, message: Message, key: string)
    ensures key in Merge(previous, message) <==> key in previous || key in message
    ensures key in message ==> Merge(previous, message)[key] == message[key]
    ensures key in previous && key !in message ==> Merge(previous, message)[key] == previous[key]
  {
  }

  // ---------------------------------------------------------- materialising

  datatype Table = Table(rows: seq<Message>, positions: map<Key, nat>)

  /** One row folded in; `None` is an unreadable sequence number. */
  function Fold(t: Table, m: Message, parse: string -> Option<int>): Option<Table> {
    var key := KeyOf(m);
    if key.1 != "" && key in t.positions && t.positions[key] < |t.rows| then
      var i := t.positions[key];
      match (Sequence(m, parse), Sequence(t.rows[i], parse))
      case (Some(a), Some(b)) => Some(if a >= b then t.(rows := t.rows[i := Merge(t.rows[i], m)]) else t)
      case _ => None
    else
      Some(Table(t.rows + [m], if key.1 != "" then t.positions[key := |t.rows|] else t.positions))
  }

  function FoldAll(ms: seq<Message>, parse: string -> Option<int>): Option<Table> {
    if ms == [] then Some(Table([], map[]))
    else match FoldAll(ms[..|ms| - 1], parse)
      case None => None
      case Some(t) => Fold(t, ms[|ms| - 1], parse)
  }

  method Materialize(ms: seq<Message>, parse: string -> Option<int>) returns (r: Option<seq<Message>>)
    ensures r == match FoldAll(ms, parse) case None => None case Some(t) => Some(t.rows)
  {
    var rows: seq<Message>, positions: map<Key, nat> := [], map[];
    for i := 0 to |ms|
      invariant FoldAll(ms[..i], parse) == Some(Table(rows, positions))
      invariant forall key :: key in positions ==> positions[key] < |rows|
    {
      var m := ms[i];
      ghost var before := Table(rows, positions);
      FoldNext(ms, i, before, parse);
      var key := KeyOf(m);
      if key.1 != "" && key in positions {
        var index := positions[key];
        var a, b := Sequence(m, parse), Sequence(rows[index], parse);
        if a.None? || b.None? {
          Unreadable(ms, i + 1, parse);
          return None;
        }
        if a.value >= b.value { rows := rows[index := Merge(rows[index], m)]; }
      } else {
        if key.1 != "" { positions := positions[key := |rows|]; }
        rows := rows + [m];
      }
      assert Fold(before, m, parse) == Some(Table(rows, positions));
    }
    assert ms[..|ms|] == ms;
    return Some(rows);
  }

  lemma FoldNext(ms: seq<Message>, i: nat, t: Table, parse: string -> Option<int>)
    requires i < |ms| && FoldAll(ms[..i], parse) == Some(t)
    ensures FoldAll(ms[..i + 1], parse) == Fold(t, ms[i], parse)
  {
    assert ms[..i + 1][..i] == ms[..i];
  }

  lemma {:induction false} Unreadable(ms: seq<Message>, i: nat, parse: string -> Option<int>)
    requires i <= |ms| && FoldAll(ms[..i], parse).None?
    ensures FoldAll(ms, parse).None?
    decreases |ms|
  {
    if i < |ms| {
      assert ms[..|ms| - 1][..i] == ms[..i];
      Unreadable(ms[..|ms| - 1], i, parse);
    } else {
      assert ms[..i] == ms;
    }
  }

  // ----------------------------------------- what the rows are: one per group

  predicate Leads(ms: seq<Message>, i: nat)
    requires i < |ms|
  {
    Identity(ms[i]) == "" || forall j :: 0 <= j < i ==> KeyOf(ms[j]) != KeyOf(ms[i])
  }

  /** Anonymous rows and first rows of each key, in order. */
  function Leaders(ms: seq<Message>): seq<nat> {
    if ms == [] then []
    else
      var n := |ms| - 1;
      Leaders(ms[..n]) + if Leads(ms, n) then [n] else []
  }

  /** The fold of one key's rows alone, in order. */
  function Group(ms: seq<Message>, key: Key, parse: string -> Option<int>): Option<Message> {
    if ms == [] then None
    else
      var rest, m := Group(ms[..|ms| - 1], key, parse), ms[|ms| - 1];
      if KeyOf(m) != key then rest
      else if rest.None? then Some(m)
      else match (Sequence(m, parse), Sequence(rest.value, parse))
        case (Some(a), Some(b)) => if a >= b then Some(Merge(rest.value, m)) else rest
        case _ => rest
  }

  /** Row `k` is its leader, alone if anonymous, otherwise folded with all rows of its key; positions
      point at the row of each key. */
  ghost predicate Represents(t: Table, ms: seq<Message>, parse: string -> Option<int>) {
    && |t.rows| == |Leaders(ms)|
    && (forall k :: 0 <= k < |t.rows| ==> RowOf(t.rows[k], ms, Leaders(ms)[k], parse))
    && (forall key :: key in t.positions ==> Points(t, ms, key))
    && (forall i :: 0 <= i < |ms| && Identity(ms[i]) != "" ==> KeyOf(ms[i]) in t.positions)
  }

  ghost predicate Points(t: Table, ms: seq<Message>, key: Key)
    requires key in t.positions
  {
    && key.1 != "" && t.positions[key] < |t.rows| && t.positions[key] < |Leaders(ms)|
    && Leaders(ms)[t.positions[key]] < |ms| && KeyOf(ms[Leaders(ms)[t.positions[key]]]) == key
  }

  ghost predicate RowOf(row: Message, ms: seq<Message>, leader: nat, parse: string -> Option<int>)
  {
    leader < |ms| &&
    if Identity(ms[leader]) == "" then row == ms[leader] else Group(ms, KeyOf(ms[leader]), parse) == Some(row)
  }

  lemma LeadsInPrefix(ms: seq<Message>, n: nat, i: nat)
    requires i < n <= |ms|
    ensures Leads(ms[..n], i) <==> Leads(ms, i)
  {
    assert forall j :: 0 <= j <= i ==> ms[..n][j] == ms[j];
  }

  lemma {:induction false} LeadersLead(ms: seq<Message>)
    ensures forall k :: 0 <= k < |Leaders(ms)| ==> Leaders(ms)[k] < |ms| && Leads(ms, Leaders(ms)[k])
    ensures forall k, l :: 0 <= k < l < |Leaders(ms)| ==> Leaders(ms)[k] < Leaders(ms)[l]
  {
    if ms != [] {
      var n := |ms| - 1;
      LeadersLead(ms[..n]);
      forall k | 0 <= k < |Leaders(ms[..n])| ensures Leads(ms, Leaders(ms[..n])[k]) {
        LeadsInPrefix(ms, n, Leaders(ms[..n])[k]);
      }
    }
  }

  /** No anonymous row and no first row of a key is missing. */
  lemma {:induction false} LeadersComplete(ms: seq<Message>, i: nat)
    requires i < |ms| && Leads(ms, i)
    ensures i in Leaders(ms)
  {
    var n := |ms| - 1;
    if i < n {
      LeadsInPrefix(ms, n, i);
      LeadersComplete(ms[..n], i);
    }
  }

  lemma LeadersGrow(ms: seq<Message>, m: Message)
    ensures Leaders(ms + [m]) == Leaders(ms) + (if Leads(ms + [m], |ms|) then [|ms|] else [])
  {
    assert (ms + [m])[..|ms|] == ms;
  }

  lemma GroupGrows(ms: seq<Message>, m: Message, key: Key, parse: string -> Option<int>)
    ensures KeyOf(m) != key ==> Group(ms + [m], key, parse) == Group(ms, key, parse)
    ensures KeyOf(m) == key && Group(ms, key, parse).None? ==> Group(ms + [m], key, parse) == Some(m)
    ensures KeyOf(m) == key && Group(ms, key, parse).Some? ==>
      var row := Group(ms, key, parse).value;
      Sequence(m, parse).Some? && Sequence(row, parse).Some? ==>
        Group(ms + [m], key, parse) == Some(if Sequence(m, parse).value >= Sequence(row, parse).value then Merge(row, m) else row)
  {
    assert (ms + [m])[..|ms|] == ms;
  }

  lemma {:induction false} GroupOfAbsent(ms: seq<Message>, key: Key, parse: string -> Option<int>)
    requires forall i :: 0 <= i < |ms| ==> KeyOf(ms[i]) != key
    ensures Group(ms, key, parse) == None
  {
    if ms != [] { GroupOfAbsent(ms[..|ms| - 1], key, parse); }
  }

  /** A row of another key, or a new anonymous row, does not touch an entry. */
  lemma RowUntouched(row: Message, ms: seq<Message>, leader: nat, m: Message, parse: string -> Option<int>)
    requires RowOf(row, ms, leader, parse) && (Identity(ms[leader]) == "" || KeyOf(m) != KeyOf(ms[leader]))
    ensures RowOf(row, ms + [m], leader, parse)
  {
    assert (ms + [m])[leader] == ms[leader];
    GroupGrows(ms, m, KeyOf(ms[leader]), parse);
  }

  lemma LeadersDiffer(ms: seq<Message>, k: nat, l: nat)
    requires k < |Leaders(ms)| && l < |Leaders(ms)| && k != l
    requires Leaders(ms)[k] < |ms| && Leaders(ms)[l] < |ms| && Identity(ms[Leaders(ms)[l]]) != ""
    ensures KeyOf(ms[Leaders(ms)[k]]) != KeyOf(ms[Leaders(ms)[l]])
  {
    LeadersLead(ms);
    assert Leads(ms, Leaders(ms)[k]) && Leads(ms, Leaders(ms)[l]);
  }

  lemma NewRow(ms: seq<Message>, m: Message, parse: string -> Option<int>)
    requires Identity(m) == "" || forall i :: 0 <= i < |ms| ==> KeyOf(ms[i]) != KeyOf(m)
    ensures Leads(ms + [m], |ms|) && RowOf(m, ms + [m], |ms|, parse)
  {
    assert forall j :: 0 <= j < |ms| ==> (ms + [m])[j] == ms[j];
    if Identity(m) != "" {
      GroupOfAbsent(ms, KeyOf(m), parse);
      GroupGrows(ms, m, KeyOf(m), parse);
    }
  }

  /** A row that starts its own entry. */
  lemma AppendRepresents(t: Table, ms: seq<Message>, m: Message, parse: string -> Option<int>)
    requires Represents(t, ms, parse) && (Identity(m) == "" || KeyOf(m) !in t.positions)
    ensures Fold(t, m, parse).Some? && Represents(Fold(t, m, parse).value, ms + [m], parse)
  {
    var u := Fold(t, m, parse).value;
    var all := ms + [m];
    LeadersGrow(ms, m);
    NewRow(ms, m, parse);
    forall k | 0 <= k < |u.rows| ensures RowOf(u.rows[k], all, Leaders(all)[k], parse) {
      if k < |t.rows| {
        assert RowOf(t.rows[k], ms, Leaders(ms)[k], parse);
        RowUntouched(t.rows[k], ms, Leaders(ms)[k], m, parse);
      }
    }
    forall key | key in u.positions ensures Points(u, all, key) {
      if Identity(m) == "" || key != KeyOf(m) { assert Points(t, ms, key); }
    }
  }

  lemma MergedRow(row: Message, ms: seq<Message>, leader: nat, m: Message, parse: string -> Option<int>)
    requires RowOf(row, ms, leader, parse) && Identity(m) != "" && KeyOf(ms[leader]) == KeyOf(m)
    requires Sequence(m, parse).Some? && Sequence(row, parse).Some?
    ensures RowOf(if Sequence(m, parse).value >= Sequence(row, parse).value then Merge(row, m) else row, ms + [m], leader, parse)
    ensures !Leads(ms + [m], |ms|)
  {
    assert (ms + [m])[leader] == ms[leader];
    GroupGrows(ms, m, KeyOf(m), parse);
  }

  /** A row of a known key changes that entry only. */
  lemma MergeRepresents(t: Table, ms: seq<Message>, m: Message, parse: string -> Option<int>)
    requires Represents(t, ms, parse) && Identity(m) != "" && KeyOf(m) in t.positions && Fold(t, m, parse).Some?
    ensures Represents(Fold(t, m, parse).value, ms + [m], parse)
  {
    var u := Fold(t, m, parse).value;
    assert Points(t, ms, KeyOf(m));
    var i := t.positions[KeyOf(m)];
    assert RowOf(t.rows[i], ms, Leaders(ms)[i], parse);
    MergedRow(t.rows[i], ms, Leaders(ms)[i], m, parse);
    LeadersGrow(ms, m);
    assert Leaders(ms + [m]) == Leaders(ms);
    forall k | 0 <= k < |u.rows| ensures RowOf(u.rows[k], ms + [m], Leaders(ms)[k], parse) {
      assert RowOf(t.rows[k], ms, Leaders(ms)[k], parse);
      if k != i {
        LeadersDiffer(ms, k, i);
        RowUntouched(t.rows[k], ms, Leaders(ms)[k], m, parse);
      }
    }
    forall other | other in u.positions ensures Points(u, ms + [m], other) {
      assert Points(t, ms, other);
    }
  }

  /** The result holds every anonymous row in order and one row per key at its first position, each the
      fold of its own key's rows. */
  lemma {:induction false} MaterializeGroups(ms: seq<Message>, parse: string -> Option<int>)
    ensures FoldAll(ms, parse).Some? ==> Represents(FoldAll(ms, parse).value, ms, parse)
  {
    if ms != [] && FoldAll(ms, parse).Some? {
      var init, m := ms[..|ms| - 1], ms[|ms| - 1];
      MaterializeGroups(init, parse);
      assert ms == init + [m];
      var t := FoldAll(init, parse).value;
      if Identity(m) == "" || KeyOf(m) !in t.positions {
        AppendRepresents(t, init, m, parse);
      } else {
        MergeRepresents(t, init, m, parse);
      }
    }
  }

  /** A row's number, and whether the row states it; one that states none counts as 0. */
  datatype Num = Num(value: int, stated: bool)

  /** The numbers of the rows of a key, in order. */
  function Numbers(ms: seq<Message>, key: Key, parse: string -> Option<int>): seq<Num> {
    if ms == [] then []
    else
      var rest, m := Numbers(ms[..|ms| - 1], key, parse), ms[|ms| - 1];
      if KeyOf(m) != key then rest
      else rest + [Num(match Sequence(m, parse) case Some(n) => n case None => 0, "streamSequence" in m)]
  }

  ghost predicate ReadableGroup(ms: seq<Message>, key: Key, parse: string -> Option<int>) {
    forall i :: 0 <= i < |ms| && KeyOf(ms[i]) == key ==> Sequence(ms[i], parse).Some?
  }

  ghost predicate IsMaximum(ns: seq<Num>, top: int) {
    (forall i :: 0 <= i < |ns| ==> ns[i].value <= top) && exists i :: 0 <= i < |ns| && ns[i].value == top
  }

  /** The numbers whose largest is lost: the first is negative, some row states none, and no row states one that
      is not negative. */
  ghost predicate LosesMaximum(ns: seq<Num>) {
    && ns != [] && ns[0].value < 0
    && (exists i :: 0 <= i < |ns| && !ns[i].stated)
    && (forall i :: 0 <= i < |ns| && ns[i].stated ==> ns[i].value < 0)
  }

  /** The number a merge leaves, one row after another. */
  function Carried(ns: seq<Num>): int
    requires ns != []
  {
    var n := ns[|ns| - 1];
    if |ns| == 1 then n.value
    else
      var before := Carried(ns[..|ns| - 1]);
      if n.value >= before && n.stated then n.value else before
  }

  lemma {:induction false} CarriedIff(ns: seq<Num>)
    requires ns != [] && forall i :: 0 <= i < |ns| && !ns[i].stated ==> ns[i].value == 0
    ensures IsMaximum(ns, Carried(ns)) <==> !LosesMaximum(ns)
    ensures LosesMaximum(ns) ==> Carried(ns) < 0
  {
    if |ns| == 1 {
      assert ns[0].value == Carried(ns);
    } else {
      var init, n := ns[..|ns| - 1], ns[|ns| - 1];
      CarriedIff(init);
      assert ns == init + [n];
      OneMoreNumber(init, n);
    }
  }

  lemma OneMoreNumber(init: seq<Num>, n: Num)
    requires init != [] && (!n.stated ==> n.value == 0) && forall i :: 0 <= i < |init| && !init[i].stated ==> init[i].value == 0
    requires if LosesMaximum(init) then Carried(init) < 0 else IsMaximum(init, Carried(init))
    ensures var best := Carried(init);
            var next := if n.value >= best && n.stated then n.value else best;
            && (IsMaximum(init + [n], next) <==> !LosesMaximum(init + [n]))
            && (LosesMaximum(init + [n]) ==> next < 0)
  {
    var ns, best := init + [n], Carried(init);
    assert ns[|init|] == n && forall i :: 0 <= i < |init| ==> ns[i] == init[i];
    if LosesMaximum(init) {
      var i :| 0 <= i < |init| && !init[i].stated;
      assert !ns[i].stated && ns[i].value == 0;
    } else {
      var i :| 0 <= i < |init| && init[i].value == best;
      assert ns[i].value == best;
      assert best >= 0 && !init[i].stated ==> best == 0;
    }
  }

  lemma {:induction false} NumbersCarried(ms: seq<Message>, key: Key, parse: string -> Option<int>)
    requires ReadableGroup(ms, key, parse)
    ensures forall i :: 0 <= i < |Numbers(ms, key, parse)| && !Numbers(ms, key, parse)[i].stated ==> Numbers(ms, key, parse)[i].value == 0
    ensures Group(ms, key, parse).Some? <==> Numbers(ms, key, parse) != []
    ensures Group(ms, key, parse).Some? ==>
              Sequence(Group(ms, key, parse).value, parse) == Some(Carried(Numbers(ms, key, parse)))
  {
    if ms != [] {
      var init, m := ms[..|ms| - 1], ms[|ms| - 1];
      assert forall i :: 0 <= i < |init| ==> init[i] == ms[i];
      NumbersCarried(init, key, parse);
      if KeyOf(m) == key && Group(init, key, parse).Some? {
        MergedNumber(Group(init, key, parse).value, m, parse);
        var ns, rest := Numbers(ms, key, parse), Numbers(init, key, parse);
        assert ns[..|ns| - 1] == rest;
      }
    }
  }

  lemma MergedNumber(previous: Message, m: Message, parse: string -> Option<int>)
    ensures Sequence(Merge(previous, m), parse) == if "streamSequence" in m then Sequence(m, parse) else Sequence(previous, parse)
  {
  }

  /** For readable numbers of any sign: a key's row carries the largest number of its rows, if and only if that
      is not lost. */
  lemma GroupHasMaximumIff(ms: seq<Message>, key: Key, parse: string -> Option<int>)
    requires ReadableGroup(ms, key, parse) && Group(ms, key, parse).Some?
    ensures var ns, top := Numbers(ms, key, parse), Sequence(Group(ms, key, parse).value, parse);
            top.Some? && (IsMaximum(ns, top.value) <==> !LosesMaximum(ns))
  {
    NumbersCarried(ms, key, parse);
    CarriedIff(Numbers(ms, key, parse));
  }

  /** A row numbered -1 and then one that states no number: the largest is 0, and the merged row says -1. */
  lemma MaximumLost(parse: string -> Option<int>)
    ensures var a: Message := map["id" := Text("z"), "streamSequence" := Number(-1)];
            var b: Message := map["id" := Text("z")];
            && KeyOf(a) == KeyOf(b) && Sequence(b, parse) == Some(0)
            && Group([a, b], KeyOf(a), parse) == Some(Merge(a, b)) && Sequence(Merge(a, b), parse) == Some(-1)
  {
    var a: Message := map["id" := Text("z"), "streamSequence" := Number(-1)];
    var b: Message := map["id" := Text("z")];
    assert [a, b][..1] == [a] && [a][..0] == [];
    assert Group([a], KeyOf(a), parse) == Some(a);
  }

  // ------------------------------------------------------------ idempotence

  ghost predicate DistinctKeys(ms: seq<Message>) {
    forall i, j :: 0 <= i < j < |ms| && Identity(ms[i]) != "" ==> KeyOf(ms[i]) != KeyOf(ms[j])
  }

  lemma {:induction false} DistinctUnchanged(ms: seq<Message>, parse: string -> Option<int>)
    requires DistinctKeys(ms)
    ensures FoldAll(ms, parse).Some? && FoldAll(ms, parse).value.rows == ms
    ensures forall key :: key in FoldAll(ms, parse).value.positions ==>
      exists i :: 0 <= i < |ms| && key.1 != "" && KeyOf(ms[i]) == key
  {
    if ms != [] {
      var init, m := ms[..|ms| - 1], ms[|ms| - 1];
      DistinctUnchanged(init, parse);
      assert ms == init + [m];
      var t := FoldAll(init, parse).value;
      assert Identity(m) == "" || KeyOf(m) !in t.positions;
    }
  }

  /** A list is left as it is exactly when its identified rows have pairwise different keys. */
  lemma UnchangedIff(ms: seq<Message>, parse: string -> Option<int>)
    ensures (FoldAll(ms, parse).Some? && FoldAll(ms, parse).value.rows == ms) <==> DistinctKeys(ms)
  {
    if DistinctKeys(ms) {
      DistinctUnchanged(ms, parse);
    } else if FoldAll(ms, parse).Some? {
      MaterializeGroups(ms, parse);
      var i, j :| 0 <= i < j < |ms| && Identity(ms[i]) != "" && KeyOf(ms[i]) == KeyOf(ms[j]);
      assert !Leads(ms, j);
      LeadersFewer(ms, j);
    }
  }

  lemma {:induction false} LeadersFewer(ms: seq<Message>, j: nat)
    requires j < |ms| && !Leads(ms, j)
    ensures |Leaders(ms)| < |ms|
  {
    var n := |ms| - 1;
    var init := ms[..n];
    assert ms == init + [ms[n]];
    LeadersGrow(init, ms[n]);
    LeadersAtMost(init);
    if j < n {
      LeadsInPrefix(ms, n, j);
      LeadersFewer(init, j);
    }
  }

  lemma {:induction false} LeadersAtMost(ms: seq<Message>)
    ensures |Leaders(ms)| <= |ms|
  {
    if ms != [] { LeadersAtMost(ms[..|ms| - 1]); }
  }

  /** A row that can give its group another identity: a blank stream id, no `id`, and an event key that looks
      like a stream's. */
  predicate Uncovering(m: Message, parse: string -> Option<int>) {
    && "streamId" in m && !Truthy(m["streamId"]) && "id" !in m
    && "stream:" <= Identity(m) && |Identity(m)| > 7 && Sequence(m, parse).Some?
  }

  lemma CoveredMerge(previous: Message, m: Message, parse: string -> Option<int>)
    requires KeyOf(previous) == KeyOf(m) && Identity(m) != "" && !Uncovering(m, parse) && Sequence(m, parse).Some?
    ensures KeyOf(Merge(previous, m)) == KeyOf(m)
  {
    MergeKeepsIdentityIff(previous, m);
    MergeKeepsType(previous, m);
    if Uncovers(previous, m) {
      assert Identity(m) == "stream:" + Str(previous["streamId"]);
      TruthyShows(previous["streamId"]);
    }
  }

  lemma TruthyShows(v: Value)
    requires Truthy(v)
    ensures Str(v) != ""
  {
  }

  lemma {:induction false} GroupKeepsKey(ms: seq<Message>, key: Key, parse: string -> Option<int>)
    requires key.1 != "" && forall i :: 0 <= i < |ms| ==> !Uncovering(ms[i], parse)
    ensures Group(ms, key, parse).Some? ==> KeyOf(Group(ms, key, parse).value) == key
  {
    if ms != [] {
      var init, m := ms[..|ms| - 1], ms[|ms| - 1];
      GroupKeepsKey(init, key, parse);
      var rest := Group(init, key, parse);
      if KeyOf(m) == key && rest.Some? && Sequence(m, parse).Some? { CoveredMerge(rest.value, m, parse); }
    }
  }

  /** A second pass changes nothing. */
  ghost predicate Idempotent(ms: seq<Message>, parse: string -> Option<int>) {
    FoldAll(ms, parse).Some? ==>
      var rows := FoldAll(ms, parse).value.rows;
      FoldAll(rows, parse).Some? && FoldAll(rows, parse).value.rows == rows
  }

  /** Without an uncovering row the function is idempotent. */
  lemma MaterializeIsIdempotent(ms: seq<Message>, parse: string -> Option<int>)
    requires forall i :: 0 <= i < |ms| ==> !Uncovering(ms[i], parse)
    ensures Idempotent(ms, parse)
  {
    if FoldAll(ms, parse).Some? {
      var t := FoldAll(ms, parse).value;
      MaterializeGroups(ms, parse);
      LeadersLead(ms);
      forall k | 0 <= k < |t.rows| ensures KeyOf(t.rows[k]) == KeyOf(ms[Leaders(ms)[k]]) {
        assert RowOf(t.rows[k], ms, Leaders(ms)[k], parse);
        if Identity(ms[Leaders(ms)[k]]) != "" { GroupKeepsKey(ms, KeyOf(ms[Leaders(ms)[k]]), parse); }
      }
      forall i, j | 0 <= i < j < |t.rows| && Identity(t.rows[i]) != "" ensures KeyOf(t.rows[i]) != KeyOf(t.rows[j]) {
        LeadersDiffer(ms, j, i);
      }
      UnchangedIff(t.rows, parse);
    }
  }

  /** The stream row that an uncovering row merges into, and a row of the id that then shows through. */
  function Covered(m: Message, parse: string -> Option<int>): Message
    requires Uncovering(m, parse)
  {
    map["type" := Get(m, "type"), "streamId" := Text(Identity(m)[7..]), "id" := Text("z"),
        "streamSequence" := Number(Sequence(m, parse).value)]
  }

  function Shown(m: Message): Message {
    map["type" := Get(m, "type"), "id" := Text("z")]
  }

  lemma UncoveringMerges(m: Message, parse: string -> Option<int>)
    requires Uncovering(m, parse)
    ensures var a, c := Covered(m, parse), Shown(m);
            && KeyOf(a) == KeyOf(m) && Sequence(a, parse) == Sequence(m, parse) && Identity(c) == "z"
            && KeyOf(Merge(a, m)) == KeyOf(c)
            && !Uncovering(a, parse) && !Uncovering(c, parse)
  {
    var a := Covered(m, parse);
    assert Identity(a) == "stream:" + Identity(m)[7..] == Identity(m);
    var merged := Merge(a, m);
    assert Get(merged, "streamId") == m["streamId"] && merged["id"] == Text("z");
    assert Str(Get(merged, "type")) == Str(Get(m, "type"));
  }

  /** The condition is exact, row by row: a row is harmless in every list whose other rows are not uncovering,
      if and only if it is not uncovering itself. */
  lemma HarmlessIff(m: Message, parse: string -> Option<int>)
    ensures (forall ms: seq<Message> :: OnlyUncovering(ms, m, parse) ==> Idempotent(ms, parse)) <==> !Uncovering(m, parse)
  {
    if !Uncovering(m, parse) {
      forall ms: seq<Message> | OnlyUncovering(ms, m, parse) ensures Idempotent(ms, parse) {
        MaterializeIsIdempotent(ms, parse);
      }
    } else {
      UncoveringHarms(m, parse);
    }
  }

  lemma UncoveringHarms(m: Message, parse: string -> Option<int>)
    requires Uncovering(m, parse)
    ensures OnlyUncovering([Covered(m, parse), m, Shown(m)], m, parse) && !Idempotent([Covered(m, parse), m, Shown(m)], parse)
  {
    var a, c := Covered(m, parse), Shown(m);
    UncoveringMerges(m, parse);
    assert |Identity(a)| > 7 && |Identity(c)| == 1;
    ThreeRows(a, m, c, parse);
    CollidingRows(Merge(a, m), c, parse);
  }

  lemma CollidingRows(a: Message, c: Message, parse: string -> Option<int>)
    requires KeyOf(a) == KeyOf(c) && Identity(a) != ""
    ensures !(FoldAll([a, c], parse).Some? && FoldAll([a, c], parse).value.rows == [a, c])
  {
    assert [a, c][0] == a && [a, c][1] == c;
    UnchangedIff([a, c], parse);
  }

  /** No row but `m` is uncovering. */
  ghost predicate OnlyUncovering(ms: seq<Message>, m: Message, parse: string -> Option<int>) {
    forall i :: 0 <= i < |ms| ==> ms[i] == m || !Uncovering(ms[i], parse)
  }

  lemma ThreeRows(a: Message, b: Message, c: Message, parse: string -> Option<int>)
    requires Identity(a) != "" && KeyOf(a) == KeyOf(b) && KeyOf(c) != KeyOf(a)
    requires Sequence(a, parse).Some? && Sequence(b, parse).Some? && Sequence(b, parse).value >= Sequence(a, parse).value
    ensures FoldAll([a, b, c], parse).Some? && FoldAll([a, b, c], parse).value.rows == [Merge(a, b), c]
  {
    assert [a, b, c][..2] == [a, b] && [a, b][..1] == [a] && [a][..0] == [];
    var t0, t1 := FoldAll([], parse), FoldAll([a], parse);
    assert t1 == Fold(t0.value, a, parse);
    assert t1.Some? && t1.value.rows == [a] && KeyOf(a) in t1.value.positions && t1.value.positions[KeyOf(a)] == 0;
    assert t1.value.positions.Keys == {KeyOf(a)};
    var t2 := FoldAll([a, b], parse);
    assert t2 == Fold(t1.value, b, parse);
    assert t2.Some? && t2.value.rows == [Merge(a, b)] && t2.value.positions == t1.value.positions;
    assert FoldAll([a, b, c], parse) == Fold(t2.value, c, parse);
  }

  /** Without that, a second run can fold rows the first run kept apart. */
  lemma NotIdempotentInGeneral(parse: string -> Option<int>)
    ensures var a: Message := map["streamId" := Text("a"), "id" := Text("z")];
            var b: Message := map["streamId" := Null, "eventKey" := Text("stream:a")];
            var c: Message := map["id" := Text("z")];
            FoldAll([a, b, c], parse).Some? && FoldAll([a, b, c], parse).value.rows == [Merge(a, b), c]
            && !DistinctKeys([Merge(a, b), c])
  {
    var a: Message := map["streamId" := Text("a"), "id" := Text("z")];
    var b: Message := map["streamId" := Null, "eventKey" := Text("stream:a")];
    var c: Message := map["id" := Text("z")];
    UncoveringExample();
    assert |Identity(a)| == 8 && |Identity(c)| == 1;
    ThreeRows(a, b, c, parse);
    var rows := [Merge(a, b), c];
    assert Identity(rows[0]) == "z" && KeyOf(rows[0]) == KeyOf(rows[1]);
  }
}
