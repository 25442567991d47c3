/**
 * The assembler: `parse_instruction` turns a line `A=<int>, B=<int>` into a
 * key-to-integer map, `assemble_instruction` masks and packs it into a
 * 5-byte record, and `assemble` runs both over the non-blank lines of a
 * listing, collecting the byte stream and one trace record per
 * instruction.
 */
module Assembler {
  import opened Wrappers
  import opened Text
  import opened Format

  /** Why a line is not an instruction: a comma-separated part that does
      not split into exactly one key and one value at `=`, or a value that
      is not an integer. */
  datatype ParseError = BadField(part: string) | BadInteger(text: string)

  /** A parse failure, with the index of the offending line. */
  datatype AsmError = MalformedInstruction(line: nat, reason: ParseError)

  type Fields = map<string, int>

  /** One `key = value` part of a line, both sides stripped. */
  function ParseField(part: string): (r: Result<(string, int), ParseError>) {
    var kv := Split(part, '=');
    if |kv| != 2 then Err(BadField(part))
    else
      match ParseInt(Strip(kv[1]))
      case None => Err(BadInteger(Strip(kv[1])))
      case Some(v) => Ok((Strip(kv[0]), v))
  }

  /** The parts parsed left to right into one map; a later part with the
      same key overwrites an earlier one, and the first bad part is the
      error. */
  function ParseFields(parts: seq<string>): (r: Result<Fields, ParseError>) {
    if |parts| == 0 then Ok(map[])
    else
      match ParseFields(parts[..|parts| - 1])
      case Err(e) => Err(e)
      case Ok(m) =>
        match ParseField(parts[|parts| - 1])
        case Err(e) => Err(e)
        case Ok(kv) => Ok(m[kv.0 := kv.1])
  }

  /** What `parse_instruction(line)` returns or raises. */
  function ParseLine(line: string): (r: Result<Fields, ParseError>) {
    ParseFields(Split(line, ','))
  }

  /** `parse_instruction`: the map is filled part by part. */
  method ParseInstruction(line: string) returns (r: Result<Fields, ParseError>)
    ensures r == ParseLine(line)
  {
    var parts := Split(line, ',');
    var instruction: Fields := map[];
    var i := 0;
    while i < |parts|
      invariant 0 <= i <= |parts|
      invariant ParseFields(parts[..i]) == Ok(instruction)
    {
      var part := parts[i];
      assert parts[..i + 1][..i] == parts[..i];
      var kv := Split(part, '=');
      if |kv| != 2 {
        r := Err(BadField(part));
        ParseFieldsStopsAtError(parts, i + 1);
        return;
      }
      var value := ParseInt(Strip(kv[1]));
      if value.None? {
        r := Err(BadInteger(Strip(kv[1])));
        ParseFieldsStopsAtError(parts, i + 1);
        return;
      }
      instruction := instruction[Strip(kv[0]) := value.value];
      i := i + 1;
    }
    assert parts[..i] == parts;
    r := Ok(instruction);
  }

  /** Once a prefix of the parts fails, the whole line fails the same way. */
  lemma {:induction false} ParseFieldsStopsAtError(parts: seq<string>, k: nat)
    requires k <= |parts| && ParseFields(parts[..k]).Err?
    ensures ParseFields(parts) == ParseFields(parts[..k])
    decreases |parts| - k
  {
    if k < |parts| {
      assert parts[..k + 1][..k] == parts[..k];
      ParseFieldsStopsAtError(parts, k + 1);
    } else {
      assert parts[..k] == parts;
    }
  }

  /** A line parses exactly when every one of its parts does. */
  lemma {:induction false} ParseFieldsOkIff(parts: seq<string>)
    ensures ParseFields(parts).Ok? <==> forall i :: 0 <= i < |parts| ==> ParseField(parts[i]).Ok?
  {
    if |parts| > 0 {
      var n := |parts| - 1;
      var front := parts[..n];
      ParseFieldsOkIff(front);
      assert ParseFields(parts).Ok? <==> ParseFields(front).Ok? && ParseField(parts[n]).Ok?;
      if ParseFields(parts).Ok? {
        forall i | 0 <= i < |parts| ensures ParseField(parts[i]).Ok? {
          if i < n { assert parts[i] == front[i]; }
        }
      }
      if forall i :: 0 <= i < |parts| ==> ParseField(parts[i]).Ok? {
        forall i | 0 <= i < |front| ensures ParseField(front[i]).Ok? {
          assert front[i] == parts[i];
        }
      }
    }
  }

  /** A failing line fails at its first bad part, with that part's error. */
  lemma {:induction false} ParseFieldsFirstError(parts: seq<string>) returns (k: nat)
    requires ParseFields(parts).Err?
    ensures k < |parts| && ParseFields(parts[..k]).Ok?
    ensures ParseField(parts[k]) == Err(ParseFields(parts).error)
  {
    var front := parts[..|parts| - 1];
    if ParseFields(front).Err? {
      k := ParseFieldsFirstError(front);
      assert front[..k] == parts[..k];
    } else {
      k := |parts| - 1;
    }
  }

  /** The map built from `key=value` pairs, later keys overwriting earlier
      ones. */
  function ToMap(fields: seq<(string, int)>): (m: Fields) {
    if |fields| == 0 then map[]
    else ToMap(fields[..|fields| - 1])[fields[|fields| - 1].0 := fields[|fields| - 1].1]
  }

  /** A key that survives stripping and splitting unchanged. */
  predicate PlainKey(k: string) {
    k != [] && !IsSpace(k[0]) && !IsSpace(k[|k| - 1]) && ',' !in k && '=' !in k
  }

  /** Field `i` of a rendered line: `key=value`, preceded by a blank after
      every comma, as in `A=1, B=803`. */
  function RenderField(fields: seq<(string, int)>, i: nat): (part: string)
    requires i < |fields|
  {
    (if i == 0 then "" else " ") + fields[i].0 + "=" + ShowInt(fields[i].1)
  }

  function RenderedParts(fields: seq<(string, int)>): (parts: seq<string>)
    ensures |parts| == |fields|
  {
    seq(|fields|, i requires 0 <= i < |fields| => RenderField(fields, i))
  }

  function Render(fields: seq<(string, int)>): (line: string)
    requires |fields| >= 1
  {
    Join(RenderedParts(fields), ',')
  }

  lemma StripPadded(pad: string, k: string)
    requires pad == "" || pad == " "
    requires PlainKey(k)
    ensures Strip(pad + k) == k
  {
    if pad == " " {
      assert TrimStart(pad + k) == TrimStart(k) by {
        assert (pad + k)[1..] == k;
      }
    }
    StripNoSpace(k);
  }

  lemma {:induction false} ParseRenderedField(fields: seq<(string, int)>, i: nat)
    requires i < |fields| && PlainKey(fields[i].0)
    ensures ParseField(RenderField(fields, i)) == Ok(fields[i])
    ensures ',' !in RenderField(fields, i)
  {
    var pad: string := if i == 0 then "" else " ";
    var k, v := fields[i].0, fields[i].1;
    var shown := ShowInt(v);
    ShowIntPlain(v);
    assert '=' !in shown && ',' !in shown;
    assert '=' !in pad + k;
    var pieces := [pad + k, shown];
    assert RenderField(fields, i) == Join(pieces, '=');
    SplitJoin(pieces, '=');
    StripPadded(pad, k);
    StripNoSpace(shown);
    ParseShowInt(v);
    assert ',' !in pad + k + "=" + shown;
  }

  /** A line written as `k1=v1, k2=v2, ...` with plain keys parses to the
      map of its pairs; in particular `A=<a>, B=<b>` parses to
      `{A: a, B: b}`. */
  lemma {:induction false} ParseRendered(fields: seq<(string, int)>)
    requires |fields| >= 1
    requires forall i :: 0 <= i < |fields| ==> PlainKey(fields[i].0)
    ensures ParseLine(Render(fields)) == Ok(ToMap(fields))
  {
    var parts := RenderedParts(fields);
    RenderedPartsParse(fields);
    SplitJoin(parts, ',');
    assert Split(Render(fields), ',') == parts;
    ParseFieldsOfRendered(fields, parts, |fields|);
    assert parts[..|fields|] == parts;
    assert fields[..|fields|] == fields;
  }

  lemma RenderedPartsParse(fields: seq<(string, int)>)
    requires forall i :: 0 <= i < |fields| ==> PlainKey(fields[i].0)
    ensures var parts := RenderedParts(fields);
      forall i :: 0 <= i < |parts| ==> ',' !in parts[i] && ParseField(parts[i]) == Ok(fields[i])
  {
    var parts := RenderedParts(fields);
    forall i | 0 <= i < |parts| ensures ',' !in parts[i] && ParseField(parts[i]) == Ok(fields[i]) {
      assert parts[i] == RenderField(fields, i);
      ParseRenderedField(fields, i);
    }
  }

  lemma {:induction false} ParseFieldsOfRendered(fields: seq<(string, int)>, parts: seq<string>, n: nat)
    requires n <= |fields| == |parts|
    requires forall i :: 0 <= i < |parts| ==> ParseField(parts[i]) == Ok(fields[i])
    ensures ParseFields(parts[..n]) == Ok(ToMap(fields[..n]))
  {
    if n > 0 {
      ParseFieldsOfRendered(fields, parts, n - 1);
      assert parts[..n][..n - 1] == parts[..n - 1];
      assert fields[..n][..n - 1] == fields[..n - 1];
    }
  }

  /** `instruction.get(key, 0)`. */
  function FieldOr(instruction: Fields, key: string): (v: int) {
    if key in instruction then instruction[key] else 0
  }

  /** One trace record of the assembler: the masked fields and the bytes
      emitted for them. */
  datatype AsmRecord = AsmRecord(a: nat, b: nat, command: seq<Byte>)

  /** The record `assemble_instruction` logs for a parsed instruction. */
  function RecordOf(instruction: Fields): (rec: AsmRecord)
    ensures rec.a < 8 && rec.b < 0x100_0000 && |rec.command| == 5
  {
    var a, b := FieldOr(instruction, "A"), FieldOr(instruction, "B");
    AsmRecord(MaskOpcode(a), MaskArg(b), Encode(a, b))
  }

  /** The assembler's output so far, and the error that stopped it. */
  datatype AsmRun = AsmRun(data: seq<Byte>, log: seq<AsmRecord>, error: Option<AsmError>)

  /** One loop iteration of `assemble` on line number `index`. */
  function AssembleLine(run: AsmRun, line: string, index: nat): (after: AsmRun) {
    var text := Strip(line);
    if text == "" then run
    else
      match ParseLine(text)
      case Err(e) => run.(error := Some(MalformedInstruction(index, e)))
      case Ok(instruction) =>
        var rec := RecordOf(instruction);
        run.(data := run.data + rec.command, log := run.log + [rec])
  }

  /** What `assemble` produces from a listing, line by line, stopping at the
      first malformed line. */
  function AssembleLines(lines: seq<string>): (run: AsmRun) {
    if |lines| == 0 then AsmRun([], [], None)
    else
      var run := AssembleLines(lines[..|lines| - 1]);
      if run.error.Some? then run else AssembleLine(run, lines[|lines| - 1], |lines| - 1)
  }

  /** The assembler's buffers (`result_data`, `log_file_data`). */
  class Assembler {
    var data: seq<Byte>
    var log: seq<AsmRecord>

    constructor ()
      ensures data == [] && log == []
    {
      data := [];
      log := [];
    }

    /** `assemble_instruction`: masks, packs, and appends bytes and record. */
    method AssembleInstruction(instruction: Fields)
      modifies this
      ensures log == old(log) + [RecordOf(instruction)]
      ensures data == old(data) + RecordOf(instruction).command
    {
      var a := FieldOr(instruction, "A");
      var b := FieldOr(instruction, "B");
      var bytes := Encode(a, b);
      data := data + bytes;
      log := log + [AsmRecord(MaskOpcode(a), MaskArg(b), bytes)];
    }

    /** `assemble` over the lines of a listing: both buffers are cleared,
        blank lines skipped, and a malformed line stops the run. */
    method Assemble(lines: seq<string>) returns (error: Option<AsmError>)
      modifies this
      ensures AsmRun(data, log, error) == AssembleLines(lines)
    {
      data := [];
      log := [];
      var i := 0;
      while i < |lines|
        invariant 0 <= i <= |lines|
        invariant AssembleLines(lines[..i]) == AsmRun(data, log, None)
      {
        assert lines[..i + 1][..i] == lines[..i];
        var line := Strip(lines[i]);
        if line != "" {
          var instruction := ParseInstruction(line);
          if instruction.Err? {
            error := Some(MalformedInstruction(i, instruction.error));
            AssembleStopsAtError(lines, i + 1);
            return;
          }
          AssembleInstruction(instruction.value);
        }
        i := i + 1;
      }
      assert lines[..i] == lines;
      error := None;
    }
  }

  /** Lines after a malformed one are never looked at. */
  lemma {:induction false} AssembleStopsAtError(lines: seq<string>, k: nat)
    requires k <= |lines| && AssembleLines(lines[..k]).error.Some?
    ensures AssembleLines(lines) == AssembleLines(lines[..k])
    decreases |lines| - k
  {
    if k < |lines| {
      assert lines[..k + 1][..k] == lines[..k];
      AssembleStopsAtError(lines, k + 1);
    } else {
      assert lines[..k] == lines;
    }
  }

  function CountNonBlank(lines: seq<string>): (n: nat) {
    if |lines| == 0 then 0
    else CountNonBlank(lines[..|lines| - 1]) + (if Strip(lines[|lines| - 1]) == "" then 0 else 1)
  }

  /** The shape of the assembler's output: record `k` occupies bytes
      `5k .. 5k + 4` and is the encoding of its masked fields. */
  ghost predicate WellFormed(run: AsmRun) {
    |run.data| == 5 * |run.log| &&
    forall k :: 0 <= k < |run.log| ==>
      run.log[k].a < 8 && run.log[k].b < 0x100_0000 &&
      run.log[k].command == Encode(run.log[k].a, run.log[k].b) &&
      run.data[5 * k..5 * k + 5] == run.log[k].command
  }

  /** Keys other than `A` and `B` do not change the record. */
  lemma RecordOfOtherKeys(instruction: Fields, key: string, value: int)
    requires key != "A" && key != "B"
    ensures RecordOf(instruction[key := value]) == RecordOf(instruction)
  {
    assert FieldOr(instruction[key := value], "A") == FieldOr(instruction, "A");
    assert FieldOr(instruction[key := value], "B") == FieldOr(instruction, "B");
  }

  /** The map of a rendered two-field line. */
  lemma ToMapPair(k0: string, v0: int, k1: string, v1: int)
    ensures ToMap([(k0, v0), (k1, v1)]) == map[k0 := v0][k1 := v1]
  {
    var fields := [(k0, v0), (k1, v1)];
    var first := fields[..1];
    assert first == [(k0, v0)] && first[..0] == [];
    assert ToMap(first) == map[k0 := v0];
    assert fields[..|fields| - 1] == first;
  }

  /** A rendered two-field line parses to the map of its two fields. */
  lemma ParsePair(k0: string, v0: int, k1: string, v1: int)
    requires PlainKey(k0) && PlainKey(k1)
    ensures ParseLine(Render([(k0, v0), (k1, v1)])) == Ok(map[k0 := v0][k1 := v1])
  {
    ParseRendered([(k0, v0), (k1, v1)]);
    ToMapPair(k0, v0, k1, v1);
  }

  /** The fields of a line may come in either order: `B=<b>, A=<a>`
      parses like `A=<a>, B=<b>`, and so for any two distinct keys. */
  lemma FieldOrderFree(k0: string, v0: int, k1: string, v1: int)
    requires PlainKey(k0) && PlainKey(k1) && k0 != k1
    ensures ParseLine(Render([(k1, v1), (k0, v0)])) == ParseLine(Render([(k0, v0), (k1, v1)]))
  {
    ParsePair(k0, v0, k1, v1);
    ParsePair(k1, v1, k0, v0);
    MapSwap(k0, v0, k1, v1);
  }

  lemma MapSwap(k0: string, v0: int, k1: string, v1: int)
    requires k0 != k1
    ensures map[k0 := v0][k1 := v1] == map[k1 := v1][k0 := v0]
  {
  }

  /** A line may leave a field out: `A=<a>` alone parses, and `B` is then
      assembled as 0. */
  lemma FieldMissing(a: int)
    ensures ParseLine(Render([("A", a)])) == Ok(map["A" := a])
    ensures RecordOf(map["A" := a]) == RecordOf(map["A" := a, "B" := 0])
  {
    assert PlainKey("A");
    ParseRendered([("A", a)]);
    assert [("A", a)][..0] == [];
    assert "A" != "B";
  }

  /** A line may hold a third field: it is parsed into the map and then
      ignored by `assemble_instruction`. */
  lemma FieldExtra(a: int, b: int, key: string, c: int)
    requires PlainKey(key) && key != "A" && key != "B"
    ensures var r := ParseLine(Render([("A", a), ("B", b), (key, c)]));
      r == Ok(map["A" := a, "B" := b, key := c]) &&
      RecordOf(r.value) == RecordOf(map["A" := a, "B" := b])
  {
    assert PlainKey("A") && PlainKey("B");
    var fields := [("A", a), ("B", b), (key, c)];
    ParseRendered(fields);
    assert fields[..2] == [("A", a), ("B", b)];
    ToMapPair("A", a, "B", b);
    RecordOfOtherKeys(map["A" := a, "B" := b], key, c);
  }

  lemma RecordOfWellFormed(instruction: Fields)
    ensures var rec := RecordOf(instruction);
      rec.command == Encode(rec.a, rec.b) && |rec.command| == 5
  {
    var a, b := FieldOr(instruction, "A"), FieldOr(instruction, "B");
    EncodeMasked(a, b);
  }

  /** One line keeps the output well formed and adds at most one record,
      exactly one when it is non-blank and parses. */
  lemma AssembleLineShape(run: AsmRun, line: string, index: nat)
    requires WellFormed(run) && run.error.None?
    ensures var run' := AssembleLine(run, line, index);
      WellFormed(run') &&
      |run'.log| == |run.log| + (if Strip(line) == "" || run'.error.Some? then 0 else 1)
  {
    var text := Strip(line);
    if text != "" && ParseLine(text).Ok? {
      var instruction := ParseLine(text).value;
      var rec := RecordOf(instruction);
      RecordOfWellFormed(instruction);
      var run' := AssembleLine(run, line, index);
      assert run' == run.(data := run.data + rec.command, log := run.log + [rec]);
      forall k | 0 <= k < |run'.log|
        ensures run'.data[5 * k..5 * k + 5] == run'.log[k].command
      {
        if k < |run.log| {
          assert run'.data[5 * k..5 * k + 5] == run.data[5 * k..5 * k + 5];
        } else {
          assert run'.data[5 * k..5 * k + 5] == rec.command;
        }
      }
    }
  }

  /** Every record is 5 bytes, so a listing of N non-blank lines assembles
      into exactly 5N bytes and N trace records. */
  lemma {:induction false} AssembleShape(lines: seq<string>)
    ensures WellFormed(AssembleLines(lines))
    ensures AssembleLines(lines).error.None? ==> |AssembleLines(lines).log| == CountNonBlank(lines)
    ensures |AssembleLines(lines).log| <= CountNonBlank(lines)
  {
    if |lines| > 0 {
      var front := lines[..|lines| - 1];
      AssembleShape(front);
      var run := AssembleLines(front);
      if run.error.None? {
        AssembleLineShape(run, lines[|lines| - 1], |lines| - 1);
      }
    }
  }

  /** Byte 4 of every assembled record is 0. */
  lemma AssembledPadding(lines: seq<string>, k: nat)
    requires k < |AssembleLines(lines).log|
    ensures 5 * k + 4 < |AssembleLines(lines).data| && AssembleLines(lines).data[5 * k + 4] == 0
  {
    AssembleShape(lines);
    var run := AssembleLines(lines);
    PaddingIsZero(run.log[k].a, run.log[k].b);
    assert run.data[5 * k + 4] == run.data[5 * k..5 * k + 5][4];
  }

  /** The interpreter's decoder reads back, record by record, exactly the
      masked fields the assembler logged. */
  lemma AssembleThenDecode(lines: seq<string>)
    ensures var run := AssembleLines(lines);
      DecodeProgram(run.data) == seq(|run.log|, k requires 0 <= k < |run.log| => Instr(run.log[k].a, run.log[k].b))
  {
    AssembleShape(lines);
    var run := AssembleLines(lines);
    forall k | 0 <= k < |run.log|
      ensures DecodeProgram(run.data)[k] == Instr(run.log[k].a, run.log[k].b)
    {
      DecodeProgramAt(run.data, k);
      RoundTrip(run.log[k].a, run.log[k].b);
    }
  }

  /** Every non-blank line of the listing parses. */
  ghost predicate AllLinesParse(lines: seq<string>) {
    forall i :: 0 <= i < |lines| && Strip(lines[i]) != "" ==> ParseLine(Strip(lines[i])).Ok?
  }

  lemma AllLinesParseSnoc(lines: seq<string>)
    requires |lines| > 0
    ensures var front, last := lines[..|lines| - 1], lines[|lines| - 1];
      AllLinesParse(lines) <==> AllLinesParse(front) && (Strip(last) == "" || ParseLine(Strip(last)).Ok?)
  {
    var front := lines[..|lines| - 1];
    assert forall i :: 0 <= i < |front| ==> front[i] == lines[i];
  }

  /** A listing assembles without error exactly when each of its non-blank
      lines parses. */
  lemma {:induction false} AssembleOkIff(lines: seq<string>)
    ensures AssembleLines(lines).error.None? <==> AllLinesParse(lines)
  {
    if |lines| > 0 {
      var front := lines[..|lines| - 1];
      AssembleOkIff(front);
      AllLinesParseSnoc(lines);
    }
  }

  /** A reported error names the first line that does not parse, and that
      line's parse error. */
  lemma {:induction false} AssembleErrorNames(lines: seq<string>)
    requires AssembleLines(lines).error.Some?
    ensures var e := AssembleLines(lines).error.value;
      e.line < |lines| && Strip(lines[e.line]) != "" && ParseLine(Strip(lines[e.line])) == Err(e.reason) &&
      AllLinesParse(lines[..e.line])
  {
    var front := lines[..|lines| - 1];
    if AssembleLines(front).error.Some? {
      AssembleErrorNames(front);
      var e := AssembleLines(front).error.value;
      assert front[..e.line] == lines[..e.line];
      assert front[e.line] == lines[e.line];
    } else {
      AssembleOkIff(front);
    }
  }
}
