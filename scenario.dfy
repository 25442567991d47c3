/**
 * The end-to-end run the repository's test performs: a twenty-line
 * listing that stores 5, 10, 15, 20, 25 in cells 0..4 and then multiplies
 * each cell by 185, assembled, interpreted, and read back as the memory
 * range `0:5`.
 */
module Scenario {
  import opened Wrappers
  import opened Text
  import opened Format
  import opened Assembler
  import opened Interpreter

  /** The source line `A=<a>, B=<b>`. */
  function LineOf(a: int, b: int): (line: string) {
    Render([("A", a), ("B", b)])
  }

  lemma LineOfText(a: int, b: int)
    ensures LineOf(a, b) == "A=" + ShowInt(a) + ", B=" + ShowInt(b)
  {
    var fields := [("A", a), ("B", b)];
    var p0, p1 := RenderField(fields, 0), RenderField(fields, 1);
    assert p0 == "A=" + ShowInt(a);
    assert p1 == " B=" + ShowInt(b);
    var parts := RenderedParts(fields);
    assert parts == [p0, p1];
    assert parts[1..] == [p1];
    assert Join(parts, ',') == p0 + [','] + p1;
    assert [','] + " B=" == ", B=";
  }

  /** A listing file of such lines, each ended by a newline, as reading the
      file line by line yields them. */
  function ListingOf(pairs: seq<(int, int)>): (lines: seq<string>)
    ensures |lines| == |pairs|
  {
    seq(|pairs|, i requires 0 <= i < |pairs| => LineOf(pairs[i].0, pairs[i].1) + "\n")
  }

  lemma StripLineOf(a: int, b: int)
    ensures Strip(LineOf(a, b) + "\n") == LineOf(a, b)
  {
    var line := LineOf(a, b);
    LineOfText(a, b);
    ShowIntPlain(b);
    var shown := ShowInt(b);
    assert line[|line| - 1] == shown[|shown| - 1];
    StripTrailing(line, "\n");
  }

  lemma ParseLineOf(a: int, b: int)
    ensures ParseLine(LineOf(a, b)) == Ok(map["A" := a, "B" := b])
  {
    var fields := [("A", a), ("B", b)];
    ParseRendered(fields);
    assert ParseLine(LineOf(a, b)) == Ok(ToMap(fields));
    assert fields[..1] == [("A", a)] && fields[..1][..0] == [];
    assert ToMap(fields[..1]) == map["A" := a];
    assert ToMap(fields) == map["A" := a, "B" := b];
  }

  /** The record `assemble_instruction` logs for `{A: a, B: b}` with
      in-range fields. */
  lemma RecordOfFields(a: nat, b: nat)
    requires a < 8 && b < 0x100_0000
    ensures RecordOf(map["A" := a as int, "B" := b as int]) == AsmRecord(a, b, Encode(a, b))
  {
    var m: Fields := map["A" := a as int, "B" := b as int];
    assert "A" != "B";
    assert FieldOr(m, "A") == a && FieldOr(m, "B") == b;
  }

  /** One listing line with in-range fields assembles to its record. */
  lemma AssembleLineOf(run: AsmRun, a: nat, b: nat, index: nat)
    requires a < 8 && b < 0x100_0000
    ensures AssembleLine(run, LineOf(a, b) + "\n", index) ==
      run.(data := run.data + Encode(a, b), log := run.log + [AsmRecord(a, b, Encode(a, b))])
  {
    var line := LineOf(a, b);
    StripLineOf(a, b);
    LineOfText(a, b);
    assert line != "";
    ParseLineOf(a, b);
    RecordOfFields(a, b);
  }

  /** Record `k` of the log holds the fields of pair `k`. */
  ghost predicate LogHolds(log: seq<AsmRecord>, pairs: seq<(nat, nat)>) {
    |log| == |pairs| && forall k :: 0 <= k < |pairs| ==> log[k].a == pairs[k].0 && log[k].b == pairs[k].1
  }

  /** The listing of a prefix of the pairs is the prefix of the listing. */
  lemma ListingPrefix(pairs: seq<(int, int)>, n: nat)
    requires n <= |pairs|
    ensures ListingOf(pairs)[..n] == ListingOf(pairs[..n])
  {
    var whole, part := ListingOf(pairs), ListingOf(pairs[..n]);
    assert forall i :: 0 <= i < n ==> whole[i] == part[i];
  }

  /** One more record with the fields of one more pair. */
  lemma LogHoldsSnoc(log: seq<AsmRecord>, pairs: seq<(nat, nat)>, rec: AsmRecord)
    requires |pairs| > 0 && LogHolds(log, pairs[..|pairs| - 1])
    requires rec.a == pairs[|pairs| - 1].0 && rec.b == pairs[|pairs| - 1].1
    ensures LogHolds(log + [rec], pairs)
  {
    var front := pairs[..|pairs| - 1];
    assert forall k :: 0 <= k < |front| ==> (log + [rec])[k] == log[k] && pairs[k] == front[k];
  }

  /** A listing of in-range `A=<a>, B=<b>` lines assembles without error
      into one record per line, holding that line's fields. */
  lemma {:induction false} AssembleListing(pairs: seq<(nat, nat)>)
    requires forall i :: 0 <= i < |pairs| ==> pairs[i].0 < 8 && pairs[i].1 < 0x100_0000
    ensures AssembleLines(ListingOf(pairs)).error.None?
    ensures LogHolds(AssembleLines(ListingOf(pairs)).log, pairs)
  {
    if |pairs| > 0 {
      var n := |pairs| - 1;
      var front := pairs[..n];
      var a, b := pairs[n].0, pairs[n].1;
      AssembleListing(front);
      ListingPrefix(pairs, n);
      var lines := ListingOf(pairs);
      var run := AssembleLines(ListingOf(front));
      assert lines[n] == LineOf(a, b) + "\n";
      assert AssembleLines(lines) == AssembleLine(run, lines[n], n);
      AssembleLineOf(run, a, b, n);
      LogHoldsSnoc(run.log, pairs, AsmRecord(a, b, Encode(a, b)));
    }
  }

  /** The `(A, B)` pairs of the test listing. */
  const TestPairs: seq<(nat, nat)> :=
    [(1, 5), (2, 0), (1, 10), (2, 1), (1, 15), (2, 2), (1, 20), (2, 3), (1, 25), (2, 4),
     (1, 185), (3, 0), (1, 185), (3, 1), (1, 185), (3, 2), (1, 185), (3, 3), (1, 185), (3, 4)]

  const TestListing: seq<string> := ListingOf(TestPairs)

  /** The instructions the test listing spells out. */
  const TestProgram: seq<Instr> :=
    [Instr(1, 5), Instr(2, 0), Instr(1, 10), Instr(2, 1), Instr(1, 15),
     Instr(2, 2), Instr(1, 20), Instr(2, 3), Instr(1, 25), Instr(2, 4),
     Instr(1, 185), Instr(3, 0), Instr(1, 185), Instr(3, 1), Instr(1, 185),
     Instr(3, 2), Instr(1, 185), Instr(3, 3), Instr(1, 185), Instr(3, 4)]

  /** Instruction `k` of the test program carries the fields of line `k`. */
  lemma TestProgramPairs()
    ensures |TestProgram| == |TestPairs|
    ensures forall k :: 0 <= k < |TestPairs| ==> TestProgram[k] == Instr(TestPairs[k].0, TestPairs[k].1)
  {
    forall k | 0 <= k < |TestPairs|
      ensures TestProgram[k] == Instr(TestPairs[k].0, TestPairs[k].1)
    {
    }
  }

  /** The test listing assembles, without error, into the twenty
      instructions written in it. */
  lemma AssembleTestListing()
    ensures AssembleLines(TestListing).error.None?
    ensures |AssembleLines(TestListing).log| == 20
    ensures AssembleLines(TestListing).log[0].a == 1 && AssembleLines(TestListing).log[0].b == 5
    ensures DecodeProgram(AssembleLines(TestListing).data) == TestProgram
  {
    AssembleListing(TestPairs);
    AssembleThenDecode(TestListing);
    TestProgramPairs();
    var run := AssembleLines(TestListing);
    var prog := DecodeProgram(run.data);
    assert |prog| == |TestProgram|;
    forall k | 0 <= k < |TestProgram|
      ensures prog[k] == TestProgram[k]
    {
      assert prog[k] == Instr(run.log[k].a, run.log[k].b);
    }
  }

  /** A memory of the usual size whose first cells are `cells` and whose
      other cells are zero. */
  function Mem(cells: seq<int>): (memory: seq<int>)
    requires |cells| <= MemorySize
    ensures |memory| == MemorySize
    ensures forall i :: 0 <= i < |cells| ==> memory[i] == cells[i]
    ensures forall i :: |cells| <= i < MemorySize ==> memory[i] == 0
  {
    cells + seq(MemorySize - |cells|, _ => 0)
  }

  /** Writing cell `a` of such a memory writes cell `a` of `cells`. */
  lemma MemUpdate(cells: seq<int>, a: nat, v: int)
    requires a < |cells| <= MemorySize
    ensures Mem(cells)[a := v] == Mem(cells[a := v])
  {
    var before, after := Mem(cells), Mem(cells[a := v]);
    assert forall i :: 0 <= i < MemorySize ==> before[a := v][i] == after[i];
  }

  /** The memory `interpret` starts from. */
  lemma MemReset(r: seq<int>)
    ensures Reset(r) == Vm(Mem([0, 0, 0, 0, 0]), [], r)
  {
    var zeros := Mem([0, 0, 0, 0, 0]);
    assert forall i :: 0 <= i < MemorySize ==> Reset(r).memory[i] == zeros[i];
  }

  /** `LOAD_CONSTANT c` pushes `c`. */
  lemma LoadStep(cells: seq<int>, stack: seq<int>, results: seq<int>, c: nat)
    requires |cells| == 5
    ensures Execute(LoadConstant, c, Vm(Mem(cells), stack, results)) ==
      Stepped(Vm(Mem(cells), stack + [c], results), None)
  {
  }

  /** `STORE_TO_MEMORY a` for a cell among the first five moves the top of
      the stack into it. */
  lemma StoreStep(cells: seq<int>, stack: seq<int>, results: seq<int>, a: nat, v: int)
    requires |cells| == 5 && a < 5
    ensures Execute(StoreToMemory, a, Vm(Mem(cells), stack + [v], results)) ==
      Stepped(Vm(Mem(cells[a := v]), stack, results), None)
  {
    assert (stack + [v])[..|stack|] == stack;
    MemUpdate(cells, a, v);
  }

  /** `MULTIPLY a` for a cell among the first five multiplies it by the top
      of the stack, and leaves and logs the product. */
  lemma MultiplyStep(cells: seq<int>, stack: seq<int>, results: seq<int>, a: nat, v: int)
    requires |cells| == 5 && a < 5
    ensures Execute(Multiply, a, Vm(Mem(cells), stack + [v], results)) ==
      Stepped(Vm(Mem(cells[a := v * cells[a]]), stack + [v * cells[a]], results + [v * cells[a]]), None)
  {
    assert (stack + [v])[..|stack|] == stack;
    MemUpdate(cells, a, v * cells[a]);
  }

  /** The states the test program passes through from a reset machine whose
      product log is `r`. */
  function TestStates(r: seq<int>): (vms: seq<Vm>)
    ensures |vms| == |TestProgram| + 1
  {
    [Vm(Mem([0, 0, 0, 0, 0]), [], r),
     Vm(Mem([0, 0, 0, 0, 0]), [5], r),
     Vm(Mem([5, 0, 0, 0, 0]), [], r),
     Vm(Mem([5, 0, 0, 0, 0]), [10], r),
     Vm(Mem([5, 10, 0, 0, 0]), [], r),
     Vm(Mem([5, 10, 0, 0, 0]), [15], r),
     Vm(Mem([5, 10, 15, 0, 0]), [], r),
     Vm(Mem([5, 10, 15, 0, 0]), [20], r),
     Vm(Mem([5, 10, 15, 20, 0]), [], r),
     Vm(Mem([5, 10, 15, 20, 0]), [25], r),
     Vm(Mem([5, 10, 15, 20, 25]), [], r),
     Vm(Mem([5, 10, 15, 20, 25]), [185], r),
     Vm(Mem([925, 10, 15, 20, 25]), [925], r + [925]),
     Vm(Mem([925, 10, 15, 20, 25]), [925, 185], r + [925]),
     Vm(Mem([925, 1850, 15, 20, 25]), [925, 1850], r + [925, 1850]),
     Vm(Mem([925, 1850, 15, 20, 25]), [925, 1850, 185], r + [925, 1850]),
     Vm(Mem([925, 1850, 2775, 20, 25]), [925, 1850, 2775], r + [925, 1850, 2775]),
     Vm(Mem([925, 1850, 2775, 20, 25]), [925, 1850, 2775, 185], r + [925, 1850, 2775]),
     Vm(Mem([925, 1850, 2775, 3700, 25]), [925, 1850, 2775, 3700], r + [925, 1850, 2775, 3700]),
     Vm(Mem([925, 1850, 2775, 3700, 25]), [925, 1850, 2775, 3700, 185], r + [925, 1850, 2775, 3700]),
     Vm(Mem([925, 1850, 2775, 3700, 4625]), [925, 1850, 2775, 3700, 4625], r + [925, 1850, 2775, 3700, 4625])]
  }

  /** Step 0 of the test program, `LOAD_CONSTANT 5`. */
  lemma TestStep0(r: seq<int>, k: nat)
    requires k == 0
    ensures Execute(TestProgram[k].opcode, TestProgram[k].arg, TestStates(r)[k]) == Stepped(TestStates(r)[k + 1], None)
  {
    assert k + 1 == 1;
    assert TestProgram[0] == Instr(1, 5);
    assert TestStates(r)[0] == Vm(Mem([0, 0, 0, 0, 0]), [], r);
    assert TestStates(r)[1] == Vm(Mem([0, 0, 0, 0, 0]), [5], r);
    LoadStep([0, 0, 0, 0, 0], [], r, 5);
  }

  /** Step 1, `STORE_TO_MEMORY 0`. */
  lemma TestStep1(r: seq<int>, k: nat)
    requires k == 1
    ensures Execute(TestProgram[k].opcode, TestProgram[k].arg, TestStates(r)[k]) == Stepped(TestStates(r)[k + 1], None)
  {
    assert k + 1 == 2;
    assert TestProgram[1] == Instr(2, 0);
    assert TestStates(r)[1] == Vm(Mem([0, 0, 0, 0, 0]), [5], r);
    assert TestStates(r)[2] == Vm(Mem([5, 0, 0, 0, 0]), [], r);
    assert [] + [5] == [5];
    assert [0, 0, 0, 0, 0][0 := 5] == [5, 0, 0, 0, 0];
    StoreStep([0, 0, 0, 0, 0], [], r, 0, 5);
  }

  /** Step 2, `LOAD_CONSTANT 10`. */
  lemma TestStep2(r: seq<int>, k: nat)
    requires k == 2
    ensures Execute(TestProgram[k].opcode, TestProgram[k].arg, TestStates(r)[k]) == Stepped(TestStates(r)[k + 1], None)
  {
    assert k + 1 == 3;
    assert TestProgram[2] == Instr(1, 10);
    assert TestStates(r)[2] == Vm(Mem([5, 0, 0, 0, 0]), [], r);
    assert TestStates(r)[3] == Vm(Mem([5, 0, 0, 0, 0]), [10], r);
    LoadStep([5, 0, 0, 0, 0], [], r, 10);
  }

  /** Step 3, `STORE_TO_MEMORY 1`. */
  lemma TestStep3(r: seq<int>, k: nat)
    requires k == 3
    ensures Execute(TestProgram[k].opcode, TestProgram[k].arg, TestStates(r)[k]) == Stepped(TestStates(r)[k + 1], None)
  {
    assert k + 1 == 4;
    assert TestProgram[3] == Instr(2, 1);
    assert TestStates(r)[3] == Vm(Mem([5, 0, 0, 0, 0]), [10], r);
    assert TestStates(r)[4] == Vm(Mem([5, 10, 0, 0, 0]), [], r);
    assert [] + [10] == [10];
    assert [5, 0, 0, 0, 0][1 := 10] == [5, 10, 0, 0, 0];
    StoreStep([5, 0, 0, 0, 0], [], r, 1, 10);
  }

  /** Step 4, `LOAD_CONSTANT 15`. */
  lemma TestStep4(r: seq<int>, k: nat)
    requires k == 4
    ensures Execute(TestProgram[k].opcode, TestProgram[k].arg, TestStates(r)[k]) == Stepped(TestStates(r)[k + 1], None)
  {
    assert k + 1 == 5;
    assert TestProgram[4] == Instr(1, 15);
    assert TestStates(r)[4] == Vm(Mem([5, 10, 0, 0, 0]), [], r);
    assert TestStates(r)[5] == Vm(Mem([5, 10, 0, 0, 0]), [15], r);
    LoadStep([5, 10, 0, 0, 0], [], r, 15);
  }

  /** Step 5, `STORE_TO_MEMORY 2`. */
  lemma TestStep5(r: seq<int>, k: nat)
    requires k == 5
    ensures Execute(TestProgram[k].opcode, TestProgram[k].arg, TestStates(r)[k]) == Stepped(TestStates(r)[k + 1], None)
  {
    assert k + 1 == 6;
    assert TestProgram[5] == Instr(2, 2);
    assert TestStates(r)[5] == Vm(Mem([5, 10, 0, 0, 0]), [15], r);
    assert TestStates(r)[6] == Vm(Mem([5, 10, 15, 0, 0]), [], r);
    assert [] + [15] == [15];
    assert [5, 10, 0, 0, 0][2 := 15] == [5, 10, 15, 0, 0];
    StoreStep([5, 10, 0, 0, 0], [], r, 2, 15);
  }

  /** Step 6, `LOAD_CONSTANT 20`. */
  lemma TestStep6(r: seq<int>, k: nat)
    requires k == 6
    ensures Execute(TestProgram[k].opcode, TestProgram[k].arg, TestStates(r)[k]) == Stepped(TestStates(r)[k + 1], None)
  {
    assert k + 1 == 7;
    assert TestProgram[6] == Instr(1, 20);
    assert TestStates(r)[6] == Vm(Mem([5, 10, 15, 0, 0]), [], r);
    assert TestStates(r)[7] == Vm(Mem([5, 10, 15, 0, 0]), [20], r);
    LoadStep([5, 10, 15, 0, 0], [], r, 20);
  }

  /** Step 7, `STORE_TO_MEMORY 3`. */
  lemma TestStep7(r: seq<int>, k: nat)
    requires k == 7
    ensures Execute(TestProgram[k].opcode, TestProgram[k].arg, TestStates(r)[k]) == Stepped(TestStates(r)[k + 1], None)
  {
    assert k + 1 == 8;
    assert TestProgram[7] == Instr(2, 3);
    assert TestStates(r)[7] == Vm(Mem([5, 10, 15, 0, 0]), [20], r);
    assert TestStates(r)[8] == Vm(Mem([5, 10, 15, 20, 0]), [], r);
    assert [] + [20] == [20];
    assert [5, 10, 15, 0, 0][3 := 20] == [5, 10, 15, 20, 0];
    StoreStep([5, 10, 15, 0, 0], [], r, 3, 20);
  }

  /** Step 8, `LOAD_CONSTANT 25`. */
  lemma TestStep8(r: seq<int>, k: nat)
    requires k == 8
    ensures Execute(TestProgram[k].opcode, TestProgram[k].arg, TestStates(r)[k]) == Stepped(TestStates(r)[k + 1], None)
  {
    assert k + 1 == 9;
    assert TestProgram[8] == Instr(1, 25);
    assert TestStates(r)[8] == Vm(Mem([5, 10, 15, 20, 0]), [], r);
    assert TestStates(r)[9] == Vm(Mem([5, 10, 15, 20, 0]), [25], r);
    LoadStep([5, 10, 15, 20, 0], [], r, 25);
  }

  /** Step 9, `STORE_TO_MEMORY 4`. */
  lemma TestStep9(r: seq<int>, k: nat)
    requires k == 9
    ensures Execute(TestProgram[k].opcode, TestProgram[k].arg, TestStates(r)[k]) == Stepped(TestStates(r)[k + 1], None)
  {
    assert k + 1 == 10;
    assert TestProgram[9] == Instr(2, 4);
    assert TestStates(r)[9] == Vm(Mem([5, 10, 15, 20, 0]), [25], r);
    assert TestStates(r)[10] == Vm(Mem([5, 10, 15, 20, 25]), [], r);
    assert [] + [25] == [25];
    assert [5, 10, 15, 20, 0][4 := 25] == [5, 10, 15, 20, 25];
    StoreStep([5, 10, 15, 20, 0], [], r, 4, 25);
  }

  /** Step 10, `LOAD_CONSTANT 185`. */
  lemma TestStep10(r: seq<int>, k: nat)
    requires k == 10
    ensures Execute(TestProgram[k].opcode, TestProgram[k].arg, TestStates(r)[k]) == Stepped(TestStates(r)[k + 1], None)
  {
    assert k + 1 == 11;
    assert TestProgram[10] == Instr(1, 185);
    assert TestStates(r)[10] == Vm(Mem([5, 10, 15, 20, 25]), [], r);
    assert TestStates(r)[11] == Vm(Mem([5, 10, 15, 20, 25]), [185], r);
    LoadStep([5, 10, 15, 20, 25], [], r, 185);
  }

  /** Step 11, `MULTIPLY 0`. */
  lemma TestStep11(r: seq<int>, k: nat)
    requires k == 11
    ensures Execute(TestProgram[k].opcode, TestProgram[k].arg, TestStates(r)[k]) == Stepped(TestStates(r)[k + 1], None)
  {
    assert k + 1 == 12;
    assert TestProgram[11] == Instr(3, 0);
    assert TestStates(r)[11] == Vm(Mem([5, 10, 15, 20, 25]), [185], r);
    assert TestStates(r)[12] == Vm(Mem([925, 10, 15, 20, 25]), [925], r + [925]);
    assert [] + [185] == [185];
    assert [] + [925] == [925];
    assert [5, 10, 15, 20, 25][0 := 925] == [925, 10, 15, 20, 25];
    assert r + [925] == r + [925];
    MultiplyStep([5, 10, 15, 20, 25], [], r, 0, 185);
  }

  /** Step 12, `LOAD_CONSTANT 185`. */
  lemma TestStep12(r: seq<int>, k: nat)
    requires k == 12
    ensures Execute(TestProgram[k].opcode, TestProgram[k].arg, TestStates(r)[k]) == Stepped(TestStates(r)[k + 1], None)
  {
    assert k + 1 == 13;
    assert TestProgram[12] == Instr(1, 185);
    assert TestStates(r)[12] == Vm(Mem([925, 10, 15, 20, 25]), [925], r + [925]);
    assert TestStates(r)[13] == Vm(Mem([925, 10, 15, 20, 25]), [925, 185], r + [925]);
    LoadStep([925, 10, 15, 20, 25], [925], r + [925], 185);
  }

  /** Step 13, `MULTIPLY 1`. */
  lemma TestStep13(r: seq<int>, k: nat)
    requires k == 13
    ensures Execute(TestProgram[k].opcode, TestProgram[k].arg, TestStates(r)[k]) == Stepped(TestStates(r)[k + 1], None)
  {
    assert k + 1 == 14;
    assert TestProgram[13] == Instr(3, 1);
    assert TestStates(r)[13] == Vm(Mem([925, 10, 15, 20, 25]), [925, 185], r + [925]);
    assert TestStates(r)[14] == Vm(Mem([925, 1850, 15, 20, 25]), [925, 1850], r + [925, 1850]);
    assert [925] + [185] == [925, 185];
    assert [925] + [1850] == [925, 1850];
    assert [925, 10, 15, 20, 25][1 := 1850] == [925, 1850, 15, 20, 25];
    assert r + [925] + [1850] == r + [925, 1850];
    MultiplyStep([925, 10, 15, 20, 25], [925], r + [925], 1, 185);
  }

  /** Step 14, `LOAD_CONSTANT 185`. */
  lemma TestStep14(r: seq<int>, k: nat)
    requires k == 14
    ensures Execute(TestProgram[k].opcode, TestProgram[k].arg, TestStates(r)[k]) == Stepped(TestStates(r)[k + 1], None)
  {
    assert k + 1 == 15;
    assert TestProgram[14] == Instr(1, 185);
    assert TestStates(r)[14] == Vm(Mem([925, 1850, 15, 20, 25]), [925, 1850], r + [925, 1850]);
    assert TestStates(r)[15] == Vm(Mem([925, 1850, 15, 20, 25]), [925, 1850, 185], r + [925, 1850]);
    LoadStep([925, 1850, 15, 20, 25], [925, 1850], r + [925, 1850], 185);
  }

  /** Step 15, `MULTIPLY 2`. */
  lemma TestStep15(r: seq<int>, k: nat)
    requires k == 15
    ensures Execute(TestProgram[k].opcode, TestProgram[k].arg, TestStates(r)[k]) == Stepped(TestStates(r)[k + 1], None)
  {
    assert k + 1 == 16;
    assert TestProgram[15] == Instr(3, 2);
    assert TestStates(r)[15] == Vm(Mem([925, 1850, 15, 20, 25]), [925, 1850, 185], r + [925, 1850]);
    assert TestStates(r)[16] == Vm(Mem([925, 1850, 2775, 20, 25]), [925, 1850, 2775], r + [925, 1850, 2775]);
    assert [925, 1850] + [185] == [925, 1850, 185];
    assert [925, 1850] + [2775] == [925, 1850, 2775];
    assert [925, 1850, 15, 20, 25][2 := 2775] == [925, 1850, 2775, 20, 25];
    assert r + [925, 1850] + [2775] == r + [925, 1850, 2775];
    MultiplyStep([925, 1850, 15, 20, 25], [925, 1850], r + [925, 1850], 2, 185);
  }

  /** Step 16, `LOAD_CONSTANT 185`. */
  lemma TestStep16(r: seq<int>, k: nat)
    requires k == 16
    ensures Execute(TestProgram[k].opcode, TestProgram[k].arg, TestStates(r)[k]) == Stepped(TestStates(r)[k + 1], None)
  {
    assert k + 1 == 17;
    assert TestProgram[16] == Instr(1, 185);
    assert TestStates(r)[16] == Vm(Mem([925, 1850, 2775, 20, 25]), [925, 1850, 2775], r + [925, 1850, 2775]);
    assert TestStates(r)[17] == Vm(Mem([925, 1850, 2775, 20, 25]), [925, 1850, 2775, 185], r + [925, 1850, 2775]);
    LoadStep([925, 1850, 2775, 20, 25], [925, 1850, 2775], r + [925, 1850, 2775], 185);
  }

  /** Step 17, `MULTIPLY 3`. */
  lemma TestStep17(r: seq<int>, k: nat)
    requires k == 17
    ensures Execute(TestProgram[k].opcode, TestProgram[k].arg, TestStates(r)[k]) == Stepped(TestStates(r)[k + 1], None)
  {
    assert k + 1 == 18;
    assert TestProgram[17] == Instr(3, 3);
    assert TestStates(r)[17] == Vm(Mem([925, 1850, 2775, 20, 25]), [925, 1850, 2775, 185], r + [925, 1850, 2775]);
    assert TestStates(r)[18] == Vm(Mem([925, 1850, 2775, 3700, 25]), [925, 1850, 2775, 3700], r + [925, 1850, 2775, 3700]);
    assert [925, 1850, 2775] + [185] == [925, 1850, 2775, 185];
    assert [925, 1850, 2775] + [3700] == [925, 1850, 2775, 3700];
    assert [925, 1850, 2775, 20, 25][3 := 3700] == [925, 1850, 2775, 3700, 25];
    assert r + [925, 1850, 2775] + [3700] == r + [925, 1850, 2775, 3700];
    MultiplyStep([925, 1850, 2775, 20, 25], [925, 1850, 2775], r + [925, 1850, 2775], 3, 185);
  }

  /** Step 18, `LOAD_CONSTANT 185`. */
  lemma TestStep18(r: seq<int>, k: nat)
    requires k == 18
    ensures Execute(TestProgram[k].opcode, TestProgram[k].arg, TestStates(r)[k]) == Stepped(TestStates(r)[k + 1], None)
  {
    assert k + 1 == 19;
    assert TestProgram[18] == Instr(1, 185);
    assert TestStates(r)[18] == Vm(Mem([925, 1850, 2775, 3700, 25]), [925, 1850, 2775, 3700], r + [925, 1850, 2775, 3700]);
    assert TestStates(r)[19] == Vm(Mem([925, 1850, 2775, 3700, 25]), [925, 1850, 2775, 3700, 185], r + [925, 1850, 2775, 3700]);
    LoadStep([925, 1850, 2775, 3700, 25], [925, 1850, 2775, 3700], r + [925, 1850, 2775, 3700], 185);
  }

  /** Step 19, `MULTIPLY 4`. */
  lemma TestStep19(r: seq<int>, k: nat)
    requires k == 19
    ensures Execute(TestProgram[k].opcode, TestProgram[k].arg, TestStates(r)[k]) == Stepped(TestStates(r)[k + 1], None)
  {
    assert k + 1 == 20;
    assert TestProgram[19] == Instr(3, 4);
    assert TestStates(r)[19] == Vm(Mem([925, 1850, 2775, 3700, 25]), [925, 1850, 2775, 3700, 185], r + [925, 1850, 2775, 3700]);
    assert TestStates(r)[20] == Vm(Mem([925, 1850, 2775, 3700, 4625]), [925, 1850, 2775, 3700, 4625], r + [925, 1850, 2775, 3700, 4625]);
    assert [925, 1850, 2775, 3700] + [185] == [925, 1850, 2775, 3700, 185];
    assert [925, 1850, 2775, 3700] + [4625] == [925, 1850, 2775, 3700, 4625];
    assert [925, 1850, 2775, 3700, 25][4 := 4625] == [925, 1850, 2775, 3700, 4625];
    assert r + [925, 1850, 2775, 3700] + [4625] == r + [925, 1850, 2775, 3700, 4625];
    MultiplyStep([925, 1850, 2775, 3700, 25], [925, 1850, 2775, 3700], r + [925, 1850, 2775, 3700], 4, 185);
  }

  /** Steps 0..4 of the test program. */
  lemma TestSteps0To4(r: seq<int>)
    ensures forall k :: 0 <= k < 5 ==> Execute(TestProgram[k].opcode, TestProgram[k].arg, TestStates(r)[k]) == Stepped(TestStates(r)[k + 1], None)
  {
    forall k | 0 <= k < 5
      ensures Execute(TestProgram[k].opcode, TestProgram[k].arg, TestStates(r)[k]) == Stepped(TestStates(r)[k + 1], None)
    {
      if k == 0 {
        TestStep0(r, k);
      } else if k == 1 {
        TestStep1(r, k);
      } else if k == 2 {
        TestStep2(r, k);
      } else if k == 3 {
        TestStep3(r, k);
      } else if k == 4 {
        TestStep4(r, k);
      }
    }
  }

  /** Steps 5..9 of the test program. */
  lemma TestSteps5To9(r: seq<int>)
    ensures forall k :: 5 <= k < 10 ==> Execute(TestProgram[k].opcode, TestProgram[k].arg, TestStates(r)[k]) == Stepped(TestStates(r)[k + 1], None)
  {
    forall k | 5 <= k < 10
      ensures Execute(TestProgram[k].opcode, TestProgram[k].arg, TestStates(r)[k]) == Stepped(TestStates(r)[k + 1], None)
    {
      if k == 5 {
        TestStep5(r, k);
      } else if k == 6 {
        TestStep6(r, k);
      } else if k == 7 {
        TestStep7(r, k);
      } else if k == 8 {
        TestStep8(r, k);
      } else if k == 9 {
        TestStep9(r, k);
      }
    }
  }

  /** Steps 10..14 of the test program. */
  lemma TestSteps10To14(r: seq<int>)
    ensures forall k :: 10 <= k < 15 ==> Execute(TestProgram[k].opcode, TestProgram[k].arg, TestStates(r)[k]) == Stepped(TestStates(r)[k + 1], None)
  {
    forall k | 10 <= k < 15
      ensures Execute(TestProgram[k].opcode, TestProgram[k].arg, TestStates(r)[k]) == Stepped(TestStates(r)[k + 1], None)
    {
      if k == 10 {
        TestStep10(r, k);
      } else if k == 11 {
        TestStep11(r, k);
      } else if k == 12 {
        TestStep12(r, k);
      } else if k == 13 {
        TestStep13(r, k);
      } else if k == 14 {
        TestStep14(r, k);
      }
    }
  }

  /** Steps 15..19 of the test program. */
  lemma TestSteps15To19(r: seq<int>)
    ensures forall k :: 15 <= k < 20 ==> Execute(TestProgram[k].opcode, TestProgram[k].arg, TestStates(r)[k]) == Stepped(TestStates(r)[k + 1], None)
  {
    forall k | 15 <= k < 20
      ensures Execute(TestProgram[k].opcode, TestProgram[k].arg, TestStates(r)[k]) == Stepped(TestStates(r)[k + 1], None)
    {
      if k == 15 {
        TestStep15(r, k);
      } else if k == 16 {
        TestStep16(r, k);
      } else if k == 17 {
        TestStep17(r, k);
      } else if k == 18 {
        TestStep18(r, k);
      } else if k == 19 {
        TestStep19(r, k);
      }
    }
  }

  /** Every step of the test program, from the state before it to the
      state after it. */
  lemma TestSteps(r: seq<int>)
    ensures forall k :: 0 <= k < |TestProgram| ==> Execute(TestProgram[k].opcode, TestProgram[k].arg, TestStates(r)[k]) == Stepped(TestStates(r)[k + 1], None)
  {
    TestSteps0To4(r);
    TestSteps5To9(r);
    TestSteps10To14(r);
    TestSteps15To19(r);
  }

  /** The test program, run from a reset machine, ends cleanly after
      twenty logged steps with the products in cells 0..4. */
  lemma RunTestProgram(r: seq<int>)
    ensures var run := RunProgram(TestProgram, Reset(r));
      run.error.None? && |run.trace| == 20 &&
      run.vm.memory[..5] == [925, 1850, 2775, 3700, 4625] &&
      run.vm.results == r + [925, 1850, 2775, 3700, 4625]
  {
    var vms := TestStates(r);
    MemReset(r);
    assert vms[0] == Reset(r);
    TestSteps(r);
    RunAlong(TestProgram, vms);
    var m := vms[20].memory;
    assert m[..5] == [m[0], m[1], m[2], m[3], m[4]];
  }

  /** The test's expectation: interpreting the assembled listing leaves
      `[925, 1850, 2775, 3700, 4625]` in memory range `0:5`. */
  lemma TestInterpret(r: seq<int>)
    ensures var run := Interpretation(AssembleLines(TestListing).data, r);
      run.error.None? && PySlice(run.vm.memory, 0, 5) == [925, 1850, 2775, 3700, 4625]
  {
    AssembleTestListing();
    RunTestProgram(r);
    var run := Interpretation(AssembleLines(TestListing).data, r);
    RunShape(TestProgram, Reset(r));
    PySliceRange(run.vm.memory, 0, 5);
  }

  /** Both commands of the test, on fresh buffers and a fresh machine. */
  method AssembleAndInterpret() returns (slice: seq<int>)
    ensures slice == [925, 1850, 2775, 3700, 4625]
  {
    var assembler := new Assembler();
    var asmError := assembler.Assemble(TestListing);
    var machine := new Machine();
    var runError := machine.Interpret(assembler.data);
    slice := machine.MemorySlice(0, 5);
    TestInterpret([]);
  }
}
