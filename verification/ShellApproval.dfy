/**
 * The command fields of a shell approval: the bounded preview that a producer
 * makes of a command, and the validators that accept a pending record or an
 * event record. SHA-256 is any function to 64 lowercase hexadecimal digits.
 */
module ShellApproval {
  import opened Text

  /** A field of an untyped record; `Other` is any value that is neither text, int nor bool. */
  datatype Value = Absent | Str(text: string) | Int(number: int) | Bool(flag: bool) | Other

  datatype Record = Record(command: Value, preview: Value, sha256: Value, chars: Value, truncated: Value)

  datatype Fields = Fields(command: string, sha256: string, chars: int, truncated: bool)

  datatype Error =
    | MissingFields | PreviewType | CommandType | DigestType | CharsType | TruncatedType
    | NegativeChars | NotLowerHex | Mismatch | TooLong | NotAboveBound | MarkerPrefix | MarkerSuffix
    | LengthMismatch | DigestMismatch

  datatype Result = Ok(fields: Fields) | Err(error: Error)

  predicate IsHex(s: string) {
    |s| == 64 && forall i :: 0 <= i < |s| ==> '0' <= s[i] <= '9' || 'a' <= s[i] <= 'f'
  }

  const MARKER_HEAD: string := "\n[truncated; command_sha256="

  function Marker(digest: string): string {
    MARKER_HEAD + digest + "]"
  }

  function Limit(limit: int): nat {
    if limit < 0 then 0 else limit
  }

  /** `show` is the text of a value that is no string; it is stripped like a string. */
  function CommandText(show: Value -> string, command: Value): string {
    Strip(if command.Str? then command.text else show(command))
  }

  function Bounded(text: string, limit: nat, digest: string): string {
    if limit == 0 then ""
    else if |text| <= limit then text
    else if |Marker(digest)| >= limit then Marker(digest)[..limit]
    else RStrip(text[..limit - |Marker(digest)|]) + Marker(digest)
  }

  function Payload(sha: string -> string, full: string, limit: int): Fields {
    Fields(Bounded(full, Limit(limit), sha(full)), sha(full), |full|, |full| > Limit(limit))
  }

  // The validators

  /** A pending record against the fields recomputed from its command. */
  function Compare(r: Record, expected: Fields): Result {
    if !r.preview.Str? then Err(PreviewType)
    else if !r.sha256.Str? then Err(DigestType)
    else if !r.chars.Int? then Err(CharsType)
    else if !r.truncated.Bool? then Err(TruncatedType)
    else if !IsHex(r.sha256.text) then Err(NotLowerHex)
    else if r.preview.text != expected.command || r.sha256.text != expected.sha256
            || r.chars.number != expected.chars || r.truncated.flag != expected.truncated then Err(Mismatch)
    else Ok(expected)
  }

  /** Whether a record lacks one of the fields a pending record has. */
  predicate Lacks(r: Record) {
    r.command.Absent? || r.preview.Absent? || r.sha256.Absent? || r.chars.Absent? || r.truncated.Absent?
  }

  function PendingFields(sha: string -> string, show: Value -> string, r: Record, limit: nat): Result {
    if Lacks(r) then Err(MissingFields)
    else Compare(r, Payload(sha, CommandText(show, r.command), limit))
  }

  predicate EndsWith(s: string, end: string) {
    |end| <= |s| && s[|s| - |end|..] == end
  }

  function TruncatedError(command: string, digest: string, chars: int, limit: nat): Result {
    var ok := Ok(Fields(command, digest, chars, true));
    if chars <= limit || chars <= |command| then Err(NotAboveBound)
    else if limit < |Marker(digest)| then (if command != Marker(digest)[..limit] then Err(MarkerPrefix) else ok)
    else if !EndsWith(command, Marker(digest)) then Err(MarkerSuffix)
    else ok
  }

  function EventFields(sha: string -> string, r: Record, limit: nat): Result {
    if !r.command.Str? then Err(CommandType)
    else if !r.sha256.Str? then Err(DigestType)
    else if !r.chars.Int? then Err(CharsType)
    else if !r.truncated.Bool? then Err(TruncatedType)
    else
      var command, digest, chars := r.command.text, r.sha256.text, r.chars.number;
      if chars < 0 then Err(NegativeChars)
      else if !IsHex(digest) then Err(NotLowerHex)
      else if |command| > limit then Err(TooLong)
      else if r.truncated.flag then TruncatedError(command, digest, chars, limit)
      else if chars != |command| then Err(LengthMismatch)
      else if digest != sha(command) then Err(DigestMismatch)
      else Ok(Fields(command, digest, chars, false))
  }

  function Validate(sha: string -> string, show: Value -> string, r: Record, limit: int): Result {
    if !r.preview.Absent? then PendingFields(sha, show, r, Limit(limit))
    else if !r.sha256.Absent? && !r.chars.Absent? && !r.truncated.Absent? then EventFields(sha, r, Limit(limit))
    else Err(MissingFields)
  }

  /** The event record that carries the given fields. */
  function AsEvent(f: Fields): Record {
    Record(Str(f.command), Absent, Str(f.sha256), Int(f.chars), Bool(f.truncated))
  }

  // What the two sides promise each other

  ghost predicate IsHash(sha: string -> string) {
    forall t :: IsHex(sha(t))
  }

  /** For every limit, negative, zero or shorter than the marker: the preview fits, is the command itself
      exactly when that fits, and otherwise shows as much of the marker as there is room for. */
  lemma PreviewFits(sha: string -> string, full: string, limit: int)
    ensures var f := Payload(sha, full, limit);
            && |f.command| <= Limit(limit)
            && (f.truncated <==> f.command != full)
            && (f.truncated && Limit(limit) < |Marker(f.sha256)| ==> f.command == Marker(f.sha256)[..Limit(limit)])
            && (f.truncated && Limit(limit) >= |Marker(f.sha256)| ==>
                  && EndsWith(f.command, Marker(f.sha256))
                  && Shows(full, f.command[..|f.command| - |Marker(f.sha256)|], Limit(limit) - |Marker(f.sha256)|))
    ensures var f := Payload(sha, full, limit);
            f.sha256 == sha(full) && f.chars == |full| && (f.truncated <==> |full| > Limit(limit))
  {
    var n, marker := Limit(limit), Marker(sha(full));
    if |full| > n >= |marker| {
      var shown := RStrip(full[..n - |marker|]);
      RStripShows(full, n - |marker|);
      assert (shown + marker)[..|shown|] == shown;
      assert n == |marker| ==> marker[..n] == marker && shown == [];
    }
  }

  /** As much of the text as there is room for, without the white space that would end it. */
  ghost predicate Shows(full: string, shown: string, room: nat)
    requires room <= |full|
  {
    && shown <= full && |shown| <= room
    && (shown != [] ==> !IsSpace(shown[|shown| - 1]))
    && (forall i :: |shown| <= i < room ==> IsSpace(full[i]))
  }

  lemma RStripShows(full: string, room: nat)
    requires room <= |full|
    ensures Shows(full, RStrip(full[..room]), room)
  {
    var shown := RStrip(full[..room]);
    forall i | |shown| <= i < room ensures IsSpace(full[i]) { assert full[..room][i] == full[i]; }
  }

  /** Exactly which events are accepted: one that carries the whole command with its length and digest, or a
      preview of a longer one that shows the marker of the digest it carries. */
  lemma EventIff(sha: string -> string, show: Value -> string, f: Fields, limit: int)
    ensures var n, marker := (if limit < 0 then 0 else limit), "\n[truncated; command_sha256=" + f.sha256 + "]";
            Validate(sha, show, AsEvent(f), limit) == Ok(f) <==>
              && |f.sha256| == 64 && (forall c :: c in f.sha256 ==> c in "0123456789abcdef") && |f.command| <= n
              && (if f.truncated then f.chars > n && (if |marker| > n then f.command == marker[..n] else EndsWith(f.command, marker))
                  else f.chars == |f.command| && f.sha256 == sha(f.command))
    ensures Validate(sha, show, AsEvent(f), limit).Ok? ==> Validate(sha, show, AsEvent(f), limit) == Ok(f)
  {
    HexIff(f.sha256);
  }

  lemma HexIff(s: string)
    ensures IsHex(s) <==> |s| == 64 && forall c :: c in s ==> c in "0123456789abcdef"
  {
    forall c: char ensures c in "0123456789abcdef" <==> '0' <= c <= '9' || 'a' <= c <= 'f' { HexDigit(c); }
    assert forall i :: 0 <= i < |s| ==> s[i] in s;
  }

  lemma HexDigit(c: char)
    ensures c in "0123456789abcdef" <==> '0' <= c <= '9' || 'a' <= c <= 'f'
  {
    var digits := "0123456789abcdef";
    if '0' <= c <= '9' { assert digits[c as int - '0' as int] == c; }
    if 'a' <= c <= 'f' { assert digits[10 + c as int - 'a' as int] == c; }
  }

  /** A pending record is refused for the first thing that is wrong with it: a field it lacks, the type of one, a
      digest in another form, or a field that is not the one recomputed from its command. */
  lemma PendingErrors(sha: string -> string, show: Value -> string, r: Record, limit: int)
    requires IsHash(sha) && !r.preview.Absent?
    ensures var e := Validate(sha, show, r, limit);
            var complete := !r.command.Absent? && !r.sha256.Absent? && !r.chars.Absent? && !r.truncated.Absent?;
            var typed := complete && r.preview.Str? && r.sha256.Str? && r.chars.Int? && r.truncated.Bool?;
            && (e == Err(MissingFields) <==> !complete)
            && (e == Err(PreviewType) <==> complete && !r.preview.Str?)
            && (e == Err(DigestType) <==> complete && r.preview.Str? && !r.sha256.Str?)
            && (e == Err(CharsType) <==> complete && r.preview.Str? && r.sha256.Str? && !r.chars.Int?)
            && (e == Err(TruncatedType) <==> complete && r.preview.Str? && r.sha256.Str? && r.chars.Int? && !r.truncated.Bool?)
            && (e == Err(NotLowerHex) <==> typed && !IsHex(r.sha256.text))
            && (e == Err(Mismatch) <==>
                  typed && IsHex(r.sha256.text) && !Carries(r, Payload(sha, CommandText(show, r.command), limit)))
  {
    var full := CommandText(show, r.command);
    SameLimit(sha, full, limit);
    PayloadHash(sha, full, limit);
    PendingCompares(sha, show, r, Limit(limit));
    if !r.command.Absent? { CompareErrors(r, Payload(sha, full, limit)); }
    assert Validate(sha, show, r, limit) == if Lacks(r) then Err(MissingFields) else Compare(r, Payload(sha, full, limit));
  }

  lemma CompareErrors(r: Record, f: Fields)
    requires IsHex(f.sha256) && !r.command.Absent?
    ensures var e := Compare(r, f);
            var typed := r.preview.Str? && r.sha256.Str? && r.chars.Int? && r.truncated.Bool?;
            && (e == Err(PreviewType) <==> !r.preview.Str?)
            && (e == Err(DigestType) <==> r.preview.Str? && !r.sha256.Str?)
            && (e == Err(CharsType) <==> r.preview.Str? && r.sha256.Str? && !r.chars.Int?)
            && (e == Err(TruncatedType) <==> r.preview.Str? && r.sha256.Str? && r.chars.Int? && !r.truncated.Bool?)
            && (e == Err(NotLowerHex) <==> typed && !IsHex(r.sha256.text))
            && (e == Err(Mismatch) <==> typed && IsHex(r.sha256.text) && !Carries(r, f))
            && e != Err(MissingFields)
  {
  }

  /** So is an event record, in the order of the checks; bounds and shapes are tried before the digest. */
  lemma EventErrors(sha: string -> string, show: Value -> string, r: Record, limit: int)
    requires r.preview.Absent?
    ensures var e := Validate(sha, show, r, limit);
            var complete := !r.sha256.Absent? && !r.chars.Absent? && !r.truncated.Absent?;
            && (e == Err(MissingFields) <==> !complete)
            && (e == Err(CommandType) <==> complete && !r.command.Str?)
            && (e == Err(DigestType) <==> complete && r.command.Str? && !r.sha256.Str?)
            && (e == Err(CharsType) <==> complete && r.command.Str? && r.sha256.Str? && !r.chars.Int?)
            && (e == Err(TruncatedType) <==> complete && r.command.Str? && r.sha256.Str? && r.chars.Int? && !r.truncated.Bool?)
  {
  }

  lemma EventContentErrors(sha: string -> string, show: Value -> string, f: Fields, limit: int)
    ensures var e, n := Validate(sha, show, AsEvent(f), limit), if limit < 0 then 0 else limit;
            var shaped := f.chars >= 0 && IsHex(f.sha256) && |f.command| <= n;
            var above := shaped && f.truncated && f.chars > n;
            && (e == Err(NegativeChars) <==> f.chars < 0)
            && (e == Err(NotLowerHex) <==> f.chars >= 0 && !IsHex(f.sha256))
            && (e == Err(TooLong) <==> f.chars >= 0 && IsHex(f.sha256) && |f.command| > n)
            && (e == Err(NotAboveBound) <==> shaped && f.truncated && f.chars <= n)
            && (e == Err(MarkerPrefix) <==> above && n < |Marker(f.sha256)| && f.command != Marker(f.sha256)[..n])
            && (e == Err(MarkerSuffix) <==> above && n >= |Marker(f.sha256)| && !EndsWith(f.command, Marker(f.sha256)))
            && (e == Err(LengthMismatch) <==> shaped && !f.truncated && f.chars != |f.command|)
            && (e == Err(DigestMismatch) <==> shaped && !f.truncated && f.chars == |f.command| && f.sha256 != sha(f.command))
  {
  }

  /** The validator of events accepts what the producer makes, and returns it unchanged. */
  lemma ProducedIsAccepted(sha: string -> string, show: Value -> string, full: string, limit: int)
    requires IsHash(sha)
    ensures Validate(sha, show, AsEvent(Payload(sha, full, limit)), limit) == Ok(Payload(sha, full, limit))
  {
    PreviewFits(sha, full, limit);
  }

  /** The record carries exactly these fields beside its full command. */
  ghost predicate Carries(r: Record, f: Fields) {
    && !r.command.Absent? && r.preview == Str(f.command)
    && r.sha256 == Str(f.sha256) && r.chars == Int(f.chars) && r.truncated == Bool(f.truncated)
  }

  lemma CompareIff(r: Record, f: Fields)
    requires IsHex(f.sha256) && !r.command.Absent?
    ensures Compare(r, f) == Ok(f) <==> Carries(r, f)
    ensures Compare(r, f).Ok? ==> Compare(r, f) == Ok(f)
  {
  }

  /** A pending record is accepted exactly when its four fields are those recomputed from its command. */
  lemma PendingIff(sha: string -> string, show: Value -> string, r: Record, limit: int)
    requires IsHash(sha) && !r.preview.Absent?
    ensures var f := Payload(sha, CommandText(show, r.command), limit);
            && (Validate(sha, show, r, limit).Ok? <==> Carries(r, f))
            && (Validate(sha, show, r, limit).Ok? ==> Validate(sha, show, r, limit) == Ok(f))
  {
    var full := CommandText(show, r.command);
    SameLimit(sha, full, limit);
    PendingCompares(sha, show, r, Limit(limit));
    PayloadHash(sha, full, limit);
    if !r.command.Absent? { CompareIff(r, Payload(sha, full, limit)); }
  }

  lemma SameLimit(sha: string -> string, full: string, limit: int)
    ensures Payload(sha, full, Limit(limit)) == Payload(sha, full, limit)
  {
  }

  lemma PayloadHash(sha: string -> string, full: string, limit: int)
    requires IsHash(sha)
    ensures IsHex(Payload(sha, full, limit).sha256)
  {
  }

  lemma PendingCompares(sha: string -> string, show: Value -> string, r: Record, limit: nat)
    ensures PendingFields(sha, show, r, limit) ==
            if Lacks(r) then Err(MissingFields) else Compare(r, Payload(sha, CommandText(show, r.command), limit))
  {
  }

  /** Whatever record is accepted, by either path, the fields returned make an event record that is accepted
      and returned unchanged. */
  lemma AcceptedIsStable(sha: string -> string, show: Value -> string, r: Record, limit: int)
    requires IsHash(sha) && Validate(sha, show, r, limit).Ok?
    ensures var f := Validate(sha, show, r, limit).fields; Validate(sha, show, AsEvent(f), limit) == Ok(f)
  {
    if !r.preview.Absent? {
      PendingIff(sha, show, r, limit);
      ProducedIsAccepted(sha, show, CommandText(show, r.command), limit);
    }
  }

  /** Some command has this payload. */
  ghost predicate Produced(sha: string -> string, show: Value -> string, f: Fields, limit: int) {
    exists command: Value :: Payload(sha, CommandText(show, command), limit) == f
  }

  /** An accepted event whose command is whole is one a producer makes exactly when that command neither
      begins nor ends with white space; the validator does not strip. */
  lemma WholeIsProducedIff(sha: string -> string, show: Value -> string, f: Fields, limit: int)
    requires Validate(sha, show, AsEvent(f), limit).Ok? && !f.truncated
    ensures Produced(sha, show, f, limit) <==>
            f.command == [] || (!IsSpace(f.command[0]) && !IsSpace(f.command[|f.command| - 1]))
  {
    StripKeepsIff(f.command);
    if Produced(sha, show, f, limit) { ProducedIsStripped(sha, show, f, limit); }
    WholeIsPayload(sha, show, f, limit);
    if Strip(f.command) == f.command { StrippedIsProduced(sha, show, f, limit); }
  }

  lemma ProducedIsStripped(sha: string -> string, show: Value -> string, f: Fields, limit: int)
    requires Produced(sha, show, f, limit) && !f.truncated
    ensures Strip(f.command) == f.command
  {
    var command: Value :| Payload(sha, CommandText(show, command), limit) == f;
    WholeShows(sha, CommandText(show, command), limit);
    CommandIsStripped(show, command);
  }

  lemma WholeShows(sha: string -> string, full: string, limit: int)
    requires !Payload(sha, full, limit).truncated
    ensures Payload(sha, full, limit).command == full
  {
  }

  lemma CommandIsStripped(show: Value -> string, command: Value)
    ensures Strip(CommandText(show, command)) == CommandText(show, command)
  {
    StripTwice(if command.Str? then command.text else show(command));
  }

  lemma WholeIsPayload(sha: string -> string, show: Value -> string, f: Fields, limit: int)
    requires Validate(sha, show, AsEvent(f), limit).Ok? && !f.truncated
    ensures Payload(sha, f.command, limit) == f
  {
    assert EventFields(sha, AsEvent(f), Limit(limit)).Ok?;
    assert Bounded(f.command, Limit(limit), f.sha256) == f.command;
  }

  lemma StrippedIsProduced(sha: string -> string, show: Value -> string, f: Fields, limit: int)
    requires Payload(sha, f.command, limit) == f && Strip(f.command) == f.command
    ensures Produced(sha, show, f, limit)
  {
    assert CommandText(show, Str(f.command)) == f.command;
  }

  /** A padded command: accepted as an event, and no producer makes it. */
  lemma PaddedIsAccepted(sha: string -> string, show: Value -> string)
    requires IsHash(sha)
    ensures var f := Fields(" ls", sha(" ls"), 3, false);
            Validate(sha, show, AsEvent(f), 1000) == Ok(f) && !Produced(sha, show, f, 1000)
  {
    var f := Fields(" ls", sha(" ls"), 3, false);
    assert Validate(sha, show, AsEvent(f), 1000) == EventFields(sha, AsEvent(f), 1000) == Ok(f);
    WholeIsProducedIff(sha, show, f, 1000);
    assert IsSpace(f.command[0]);
  }

  /** Where there is room for a digest, what is displayed fixes it: accepted events that show the same command and
      the same flag carry the same digest. */
  lemma DisplayFixesDigest(sha: string -> string, show: Value -> string, f: Fields, g: Fields, limit: int)
    requires Validate(sha, show, AsEvent(f), limit).Ok? && Validate(sha, show, AsEvent(g), limit).Ok?
    requires f.command == g.command && f.truncated == g.truncated && limit >= |MARKER_HEAD| + 64
    ensures f.sha256 == g.sha256
  {
    if f.truncated {
      var head := Marker(f.sha256)[..|MARKER_HEAD| + 64];
      assert |Marker(f.sha256)| == |Marker(g.sha256)| == |MARKER_HEAD| + 65;
      assert head == Marker(g.sha256)[..|MARKER_HEAD| + 64];
      assert f.sha256 == head[|MARKER_HEAD|..] == g.sha256;
    }
  }
}
