/**
 * The disassembler (debug.rs). Only what it computes is modelled: the offset of the next
 * instruction and whether the line column shows a number or the `|` placeholder; the text
 * it prints is not.
 */
module Debug {
  import opened Base
  import opened Values
  import opened Chunks

  /** What the line column of one listing row shows. */
  datatype LineColumn = Placeholder | LineNumber(line: i32)

  /** One row of the listing: the instruction's offset and its line column. */
  datatype Row = Row(offset: nat, line: LineColumn)

  /**
   * The line column of the instruction at `offset`, given the chunk's lines: the `|`
   * placeholder exactly when the byte before it carries the same line, the line number
   * otherwise.
   */
  function LineColumnAt(lines: seq<i32>, offset: nat): (c: LineColumn)
    requires offset < |lines|
    ensures c == Placeholder <==> 0 < offset && lines[offset] == lines[offset - 1]
    ensures c.LineNumber? ==> c.line == lines[offset]
  {
    if offset > 0 && lines[offset] == lines[offset - 1] then Placeholder
    else LineNumber(lines[offset])
  }

  /**
   * `constant_instruction`: reads the operand byte and the constant it indexes, so both
   * must exist; the next instruction starts after the operand.
   */
  function ConstantInstruction(chunk: Chunk, offset: nat): (next: nat)
    reads chunk, chunk.constants
    requires offset + 1 < |chunk.code| && chunk.code[offset + 1] as nat < |chunk.constants.values|
    ensures next == offset + 2
  {
    offset + 2
  }

  /** `simple_instruction`: a one-byte instruction. */
  function SimpleInstruction(offset: nat): (next: nat)
    ensures next == offset + 1
  {
    offset + 1
  }

  /**
   * What `disassemble_instruction` needs at `offset` in order not to panic, for a chunk
   * with this code and these lines whose pool holds `constantCount` values.
   */
  ghost predicate CanDisassembleAt(code: seq<u8>, lines: seq<i32>, constantCount: nat, offset: nat)
  {
    offset < |code| && offset < |lines| &&
    (Decode(code[offset]) == Some(OpConstant) ==>
       offset + 1 < |code| && code[offset + 1] as nat < constantCount)
  }

  /**
   * `disassemble_instruction`: the offset of the next instruction. It steps over the
   * opcode and its operands, two bytes for OpConstant and one for every other opcode and
   * for an unknown byte, which is the same length the VM's decoder gives it.
   */
  function DisassembleInstruction(chunk: Chunk, offset: nat): (next: nat)
    reads chunk, chunk.constants
    requires CanDisassembleAt(chunk.code, chunk.lines, |chunk.constants.values|, offset)
    ensures next == offset + InstructionLength(chunk.code[offset])
    ensures next <= |chunk.code|
  {
    match Decode(chunk.code[offset])
    case Some(OpConstant) => ConstantInstruction(chunk, offset)
    case Some(OpAdd) => SimpleInstruction(offset)
    case Some(OpSubstract) => SimpleInstruction(offset)
    case Some(OpMultiply) => SimpleInstruction(offset)
    case Some(OpDivide) => SimpleInstruction(offset)
    case Some(OpNegate) => SimpleInstruction(offset)
    case Some(OpReturn) => SimpleInstruction(offset)
    case None => offset + 1
  }

  /**
   * Every instruction the walk of `disassemble_chunk` meets from `offset` on can be
   * disassembled: in particular no OpConstant is cut off by the end of the code.
   */
  ghost predicate Disassemblable(code: seq<u8>, lines: seq<i32>, constantCount: nat, offset: nat)
    decreases |code| - offset
  {
    offset >= |code| ||
    (CanDisassembleAt(code, lines, constantCount, offset) &&
     Disassemblable(code, lines, constantCount, offset + InstructionLength(code[offset])))
  }

  /**
   * A walk over `code`: the instruction offsets start at 0, each one is followed by the
   * offset the previous instruction's length leads to, and the last instruction ends
   * exactly at the end of the code.
   */
  ghost predicate IsWalk(code: seq<u8>, offsets: seq<nat>)
  {
    WalkFrom(code, offsets, 0)
  }

  /**
   * The offsets of a walk over `code` from `start` on: the first instruction is at
   * `start`, and the rest is as in `IsWalk`.
   */
  ghost predicate WalkFrom(code: seq<u8>, offsets: seq<nat>, start: nat)
  {
    (|offsets| == 0 <==> start >= |code|) &&
    (forall i :: 0 <= i < |offsets| ==> offsets[i] < |code|) &&
    (forall i :: 0 <= i < |offsets| - 1 ==>
       offsets[i + 1] == offsets[i] + InstructionLength(code[offsets[i]])) &&
    (|offsets| > 0 ==>
       offsets[0] == start &&
       offsets[|offsets| - 1] + InstructionLength(code[offsets[|offsets| - 1]]) == |code|)
  }

  /** A walk is in particular the start of one. */
  lemma WalkIsPrefix(code: seq<u8>, offsets: seq<nat>)
    requires IsWalk(code, offsets)
    ensures IsWalkPrefix(code, offsets)
  {
  }

  /** The start of a walk: offsets from 0, each following from the length of the one before. */
  ghost predicate IsWalkPrefix(code: seq<u8>, offsets: seq<nat>)
  {
    (|offsets| > 0 ==> offsets[0] == 0) &&
    (forall i :: 0 <= i < |offsets| ==> offsets[i] < |code|) &&
    (forall i :: 0 <= i < |offsets| - 1 ==>
       offsets[i + 1] == offsets[i] + InstructionLength(code[offsets[i]]))
  }

  /** Byte `k` belongs to the instruction at `offsets[i]`. */
  ghost predicate Covers(code: seq<u8>, offsets: seq<nat>, i: nat, k: nat)
    requires i < |offsets| && offsets[i] < |code|
  {
    offsets[i] <= k < offsets[i] + InstructionLength(code[offsets[i]])
  }

  /** The offsets of a walk strictly increase. */
  lemma {:induction false} WalkIncreases(code: seq<u8>, offsets: seq<nat>, i: nat, j: nat)
    requires IsWalk(code, offsets) && i < j < |offsets|
    ensures offsets[i] + InstructionLength(code[offsets[i]]) <= offsets[j]
    decreases j - i
  {
    if j > i + 1 {
      WalkIncreases(code, offsets, i, j - 1);
    }
  }

  /**
   * The instructions of a walk partition the code: each byte belongs to exactly one
   * instruction, with no gap and no overlap.
   */
  lemma {:induction false} WalkPartitions(code: seq<u8>, offsets: seq<nat>, k: nat)
    requires IsWalk(code, offsets) && k < |code|
    ensures exists i :: 0 <= i < |offsets| && Covers(code, offsets, i, k)
    ensures forall i, j ::
      (0 <= i < |offsets| && 0 <= j < |offsets| && Covers(code, offsets, i, k) && Covers(code, offsets, j, k))
      ==> i == j
  {
    // The last instruction starting at or before k covers it.
    var i := 0;
    while i + 1 < |offsets| && offsets[i + 1] <= k
      invariant 0 <= i < |offsets| && offsets[i] <= k
      decreases |offsets| - i
    {
      i := i + 1;
    }
    assert Covers(code, offsets, i, k);
    forall i1, j1 | 0 <= i1 < |offsets| && 0 <= j1 < |offsets| &&
      Covers(code, offsets, i1, k) && Covers(code, offsets, j1, k)
      ensures i1 == j1
    {
      if i1 < j1 {
        WalkIncreases(code, offsets, i1, j1);
      } else if j1 < i1 {
        WalkIncreases(code, offsets, j1, i1);
      }
    }
  }

  /** Two walks agree at every index both reach. */
  lemma {:induction false} WalksAgree(code: seq<u8>, a: seq<nat>, b: seq<nat>, i: nat)
    requires IsWalkPrefix(code, a) && IsWalkPrefix(code, b) && 0 < |a| && 0 < |b|
    requires i < |a| && i < |b|
    ensures a[i] == b[i]
  {
    if i > 0 {
      WalksAgree(code, a, b, i - 1);
    }
  }

  /** The offset after `w[j]`, if the walk goes on, follows from its instruction's length. */
  lemma WalkStep(code: seq<u8>, w: seq<nat>, j: nat)
    requires IsWalkPrefix(code, w) && j < |w|
    ensures j + 1 < |w| ==> w[j + 1] == w[j] + InstructionLength(code[w[j]]) && w[j + 1] < |code|
  {
  }

  /** The instruction that ends at the end of the code is the last one of the walk. */
  lemma WalkStopsAtEnd(code: seq<u8>, w: seq<nat>, i: nat)
    requires IsWalkPrefix(code, w) && i < |w| && w[i] + InstructionLength(code[w[i]]) == |code|
    ensures i == |w| - 1
  {
    WalkStep(code, w, i);
  }

  /** A walk at least as long as another walk over the same code has the same length. */
  lemma WalkNotLonger(code: seq<u8>, a: seq<nat>, b: seq<nat>)
    requires IsWalk(code, a) && IsWalk(code, b) && 0 < |a| <= |b|
    ensures |a| == |b|
  {
    WalkIsPrefix(code, a);
    WalkIsPrefix(code, b);
    WalksAgree(code, a, b, |a| - 1);
    WalkStopsAtEnd(code, b, |a| - 1);
  }

  /**
   * The walk over a code is unique, so the rows `disassemble_chunk` returns are fully
   * determined by the chunk.
   */
  lemma WalkUnique(code: seq<u8>, a: seq<nat>, b: seq<nat>)
    requires IsWalk(code, a) && IsWalk(code, b)
    ensures a == b
  {
    if |a| > 0 {
      if |a| <= |b| {
        WalkNotLonger(code, a, b);
      } else {
        WalkNotLonger(code, b, a);
      }
      WalkIsPrefix(code, a);
      WalkIsPrefix(code, b);
      forall i | 0 <= i < |a| ensures a[i] == b[i] {
        WalksAgree(code, a, b, i);
      }
    }
  }

  /** The offset column of a listing. */
  function Offsets(rows: seq<Row>): (offsets: seq<nat>)
    ensures |offsets| == |rows| && forall i :: 0 <= i < |rows| ==> offsets[i] == rows[i].offset
  {
    seq(|rows|, i requires 0 <= i < |rows| => rows[i].offset)
  }

  /**
   * The rows of a listing of a chunk with this code and these lines: their offsets start a
   * walk, and each line column is the one `disassemble_instruction` prints.
   */
  ghost predicate IsListing(code: seq<u8>, lines: seq<i32>, rows: seq<Row>)
  {
    |code| == |lines| && IsWalkPrefix(code, Offsets(rows)) &&
    forall i :: 0 <= i < |rows| ==> rows[i].offset < |lines| && rows[i].line == LineColumnAt(lines, rows[i].offset)
  }

  /**
   * The lines a reader of the listing recovers: the number a row shows, or for `|` the
   * line recovered for the row above (`previous` for the first row).
   */
  function ReadLines(rows: seq<Row>, previous: i32): (lines: seq<i32>)
    ensures |lines| == |rows|
  {
    if rows == [] then []
    else
      var shown := match rows[0].line
        case LineNumber(l) => l
        case Placeholder => previous;
      [shown] + ReadLines(rows[1..], shown)
  }

  /** The operand byte of every OpConstant in the listing carries its opcode's line. */
  ghost predicate OperandsShareLine(code: seq<u8>, lines: seq<i32>, rows: seq<Row>)
  {
    forall i ::
      (0 <= i < |rows| && rows[i].offset + 1 < |lines| && rows[i].offset < |code| &&
       Decode(code[rows[i].offset]) == Some(OpConstant))
      ==> lines[rows[i].offset + 1] == lines[rows[i].offset]
  }

  /**
   * The `|` placeholder compares with the byte just before the instruction, which after an
   * OpConstant is its operand. So the listing can be read back into every instruction's
   * line when each operand byte carries its opcode's line.
   */
  lemma ListingShowsLines(code: seq<u8>, lines: seq<i32>, rows: seq<Row>)
    requires IsListing(code, lines, rows) && OperandsShareLine(code, lines, rows)
    ensures forall i :: 0 <= i < |rows| ==> ReadLines(rows, 0)[i] == lines[rows[i].offset]
  {
    ReadLinesFrom(code, lines, rows, 0, 0);
    assert rows[0..] == rows;
  }

  /** `ListingShowsLines` for the rows from `k` on, read with the line recovered for row `k - 1`. */
  lemma {:induction false} ReadLinesFrom(code: seq<u8>, lines: seq<i32>, rows: seq<Row>, k: nat, previous: i32)
    requires IsListing(code, lines, rows) && OperandsShareLine(code, lines, rows) && k <= |rows|
    requires 0 < k ==> previous == lines[rows[k - 1].offset]
    ensures forall j :: 0 <= j < |rows| - k ==> ReadLines(rows[k..], previous)[j] == lines[rows[k + j].offset]
    decreases |rows| - k
  {
    if k < |rows| {
      var o := rows[k].offset;
      var shown := match rows[k].line case LineNumber(l) => l case Placeholder => previous;
      if rows[k].line == Placeholder {
        // Row k - 1 ends right before row k: at its opcode, or at its operand.
        var p := rows[k - 1].offset;
        assert Offsets(rows)[k - 1] == p && Offsets(rows)[k] == o;
        assert o == p + InstructionLength(code[p]);
      }
      assert shown == lines[o];
      ReadLinesFrom(code, lines, rows, k + 1, shown);
      assert rows[k..][1..] == rows[k + 1..];
    }
  }

  /**
   * Without that condition the listing misleads: for OpConstant on line 1 with its operand
   * byte on line 2, then OpReturn on line 2, the OpReturn row shows `|` and reads back as
   * line 1.
   */
  lemma ListingMisreadsOperandLine()
    ensures var code: seq<u8> := [Encode(OpConstant), 0, Encode(OpReturn)];
      var lines: seq<i32> := [1, 2, 2];
      var rows := [Row(0, LineColumnAt(lines, 0)), Row(2, LineColumnAt(lines, 2))];
      IsWalk(code, Offsets(rows)) && rows[1].line == Placeholder &&
      ReadLines(rows, 0) == [1, 1] && lines[2] == 2
  {
    var lines: seq<i32> := [1, 2, 2];
    var rows := [Row(0, LineColumnAt(lines, 0)), Row(2, LineColumnAt(lines, 2))];
    assert rows[..1] == [Row(0, LineNumber(1))];
    assert rows[1..] == [Row(2, Placeholder)];
    assert Offsets(rows) == [0, 2];
  }

  /**
   * The rows `disassemble_chunk` prints from `offset` on: the row of the instruction at
   * `offset`, then the rows from the offset its length leads to, until the end of the code.
   */
  function Listing(code: seq<u8>, lines: seq<i32>, offset: nat): (rows: seq<Row>)
    requires |code| == |lines|
    ensures |rows| == 0 <==> offset >= |code|
    decreases |code| - offset
  {
    if offset >= |code| then []
    else [Row(offset, LineColumnAt(lines, offset))] + Listing(code, lines, offset + InstructionLength(code[offset]))
  }

  /** A walk from `next` with the instruction at `start` in front is a walk from `start`. */
  lemma WalkFromCons(code: seq<u8>, offsets: seq<nat>, start: nat, next: nat)
    requires start < |code| && next == start + InstructionLength(code[start]) && next <= |code|
    requires WalkFrom(code, offsets, next)
    ensures WalkFrom(code, [start] + offsets, start)
  {
    var w := [start] + offsets;
    forall i | 0 <= i < |w| - 1
      ensures w[i + 1] == w[i] + InstructionLength(code[w[i]])
    {
      if i > 0 {
        assert w[i] == offsets[i - 1] && w[i + 1] == offsets[i];
      }
    }
  }

  /**
   * From an offset at which everything that follows can be disassembled, the rows cover a
   * walk: no instruction is cut off by the end of the code.
   */
  lemma {:induction false} ListingWalks(code: seq<u8>, lines: seq<i32>, constantCount: nat, offset: nat)
    requires |code| == |lines| && Disassemblable(code, lines, constantCount, offset)
    ensures WalkFrom(code, Offsets(Listing(code, lines, offset)), offset)
    decreases |code| - offset
  {
    if offset < |code| {
      var next := offset + InstructionLength(code[offset]);
      var rest := Listing(code, lines, next);
      ListingWalks(code, lines, constantCount, next);
      assert Offsets([Row(offset, LineColumnAt(lines, offset))] + rest) == [offset] + Offsets(rest);
      WalkFromCons(code, Offsets(rest), offset, next);
    }
  }

  /** Every row's line column is the one `disassemble_instruction` chooses for its offset. */
  lemma {:induction false} ListingLineColumns(code: seq<u8>, lines: seq<i32>, offset: nat)
    requires |code| == |lines|
    ensures var rows := Listing(code, lines, offset);
      forall i :: 0 <= i < |rows| ==>
        offset <= rows[i].offset < |lines| && rows[i].line == LineColumnAt(lines, rows[i].offset)
    decreases |code| - offset
  {
    if offset < |code| {
      var next := offset + InstructionLength(code[offset]);
      ListingLineColumns(code, lines, next);
      var rows := Listing(code, lines, offset);
      forall i | 0 <= i < |rows|
        ensures offset <= rows[i].offset < |lines| && rows[i].line == LineColumnAt(lines, rows[i].offset)
      {
        if i > 0 {
          assert rows[i] == Listing(code, lines, next)[i - 1];
        }
      }
    }
  }

  /**
   * The rows of a chunk whose instructions can all be disassembled list its whole code: a
   * walk, with the line column of each instruction.
   */
  lemma ListingIsWalk(code: seq<u8>, lines: seq<i32>, constantCount: nat)
    requires |code| == |lines| && Disassemblable(code, lines, constantCount, 0)
    ensures IsWalk(code, Offsets(Listing(code, lines, 0)))
    ensures IsListing(code, lines, Listing(code, lines, 0))
  {
    ListingWalks(code, lines, constantCount, 0);
    WalkIsPrefix(code, Offsets(Listing(code, lines, 0)));
    ListingLineColumns(code, lines, 0);
  }

  /**
   * `disassemble_chunk`: the rows it prints, one per instruction, in order, stepping by the
   * offset `disassemble_instruction` returns.
   */
  method DisassembleChunk(chunk: Chunk) returns (rows: seq<Row>)
    requires chunk.Valid() && Disassemblable(chunk.code, chunk.lines, |chunk.constants.values|, 0)
    ensures rows == Listing(chunk.code, chunk.lines, 0)
  {
    ghost var code, lines, constantCount := chunk.code, chunk.lines, |chunk.constants.values|;
    rows := [];
    var offset := 0;
    while offset < chunk.ChunkLen()
      invariant offset <= |code| && Disassemblable(code, lines, constantCount, offset)
      invariant rows + Listing(code, lines, offset) == Listing(code, lines, 0)
      decreases |code| - offset
    {
      assert chunk.code == code && chunk.lines == lines;
      var row := Row(offset, LineColumnAt(chunk.lines, offset));
      var next := DisassembleInstruction(chunk, offset);
      assert Listing(code, lines, offset) == [row] + Listing(code, lines, next);
      assert rows + Listing(code, lines, offset) == (rows + [row]) + Listing(code, lines, next);
      rows, offset := rows + [row], next;
    }
  }
}
