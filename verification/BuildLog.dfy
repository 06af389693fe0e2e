/** The timestamping build log: a block-oriented writer that refines a
    byte-at-a-time specification and truncates it at the file limit. */
module BuildLog {
  import opened Options

  type Byte = b: int | 0 <= b < 256

  const NEWLINE: Byte := 10
  const MAX_LINE_BYTES: nat := 8192
  const STAMP_BYTES: nat := 25

  /** What the log is made of, with the time of a stamp left open. */
  datatype Mark = Stamp | Data(b: Byte) | End

  /** Payload bytes on the open output line, and whether it continues an input line. */
  datatype Cursor = Cursor(bytes: nat, continued: bool)

  const FRESH := Cursor(0, false)

  // The specification, one byte at a time.

  function Move(at: Cursor, b: Byte): Cursor {
    if b == NEWLINE then FRESH
    else if at.bytes + 1 == MAX_LINE_BYTES then Cursor(0, true)
    else Cursor(at.bytes + 1, at.continued)
  }

  function Emit(at: Cursor, b: Byte): seq<Mark> {
    if b == NEWLINE then
      if at.bytes > 0 then [End] else if at.continued then [] else [Stamp, End]
    else
      (if at.bytes == 0 then [Stamp] else []) + [Data(b)]
      + (if at.bytes + 1 == MAX_LINE_BYTES then [End] else [])
  }

  function Reach(at: Cursor, input: seq<Byte>): Cursor
    decreases |input|
  {
    if input == [] then at else Reach(Move(at, input[0]), input[1..])
  }

  function Render(at: Cursor, input: seq<Byte>): seq<Mark>
    decreases |input|
  {
    if input == [] then [] else Emit(at, input[0]) + Render(Move(at, input[0]), input[1..])
  }

  /** Closing ends an open line. */
  function Closing(at: Cursor): seq<Mark> { if at.bytes > 0 then [End] else [] }

  lemma {:induction false} RenderConcat(at: Cursor, a: seq<Byte>, b: seq<Byte>)
    ensures Reach(at, a + b) == Reach(Reach(at, a), b)
    ensures Render(at, a + b) == Render(at, a) + Render(Reach(at, a), b)
    decreases |a|
  {
    if a == [] {
      assert a + b == b;
    } else {
      assert (a + b)[0] == a[0] && (a + b)[1..] == a[1..] + b;
      RenderConcat(Move(at, a[0]), a[1..], b);
    }
  }

  function Payload(data: seq<Byte>): seq<Mark> { seq(|data|, i requires 0 <= i < |data| => Data(data[i])) }

  predicate Plain(data: seq<Byte>) { NEWLINE !in data }

  /** Bytes that neither open nor fill the line. */
  lemma {:induction false} RenderInner(at: Cursor, block: seq<Byte>)
    requires Plain(block) && 0 < at.bytes && at.bytes + |block| < MAX_LINE_BYTES
    ensures Reach(at, block) == Cursor(at.bytes + |block|, at.continued)
    ensures Render(at, block) == Payload(block)
    decreases |block|
  {
    if block != [] {
      var rest := block[1..];
      assert block[0] != NEWLINE by { assert block[0] in block; }
      RenderInner(Move(at, block[0]), rest);
      assert Payload(block) == [Data(block[0])] + Payload(rest);
    }
  }

  lemma RenderOne(at: Cursor, b: Byte)
    ensures Reach(at, [b]) == Move(at, b) && Render(at, [b]) == Emit(at, b)
  {
    assert Render(at, [b]) == Emit(at, b) + Render(Move(at, b), [b][1..]);
  }

  /** A block without a newline that fits on the open line. */
  lemma {:induction false} RenderBlock(at: Cursor, block: seq<Byte>)
    requires Plain(block) && 0 < |block| && at.bytes + |block| <= MAX_LINE_BYTES
    ensures Reach(at, block) ==
            if at.bytes + |block| == MAX_LINE_BYTES then Cursor(0, true)
            else Cursor(at.bytes + |block|, at.continued)
    ensures Render(at, block) ==
            (if at.bytes == 0 then [Stamp] else []) + Payload(block)
            + (if at.bytes + |block| == MAX_LINE_BYTES then [End] else [])
  {
    var n := |block| - 1;
    if n == 0 {
      SingleByte(at, block);
    } else {
      BlockParts(at, block, block[1..n]);
      PayloadParts(block);
      Frame(if at.bytes == 0 then [Stamp] else [], Data(block[0]), Payload(block[1..n]), Data(block[n]),
            if at.bytes + |block| == MAX_LINE_BYTES then [End] else []);
    }
  }

  lemma SingleByte(at: Cursor, block: seq<Byte>)
    requires Plain(block) && |block| == 1
    ensures Reach(at, block) == if at.bytes + 1 == MAX_LINE_BYTES then Cursor(0, true) else Cursor(at.bytes + 1, at.continued)
    ensures Render(at, block) ==
            (if at.bytes == 0 then [Stamp] else []) + Payload(block) + (if at.bytes + 1 == MAX_LINE_BYTES then [End] else [])
  {
    assert block == [block[0]] && block[0] in block;
    RenderOne(at, block[0]);
    assert Payload(block) == [Data(block[0])];
  }

  lemma PayloadParts(block: seq<Byte>)
    requires |block| > 1
    ensures Payload(block) == [Data(block[0])] + Payload(block[1..|block| - 1]) + [Data(block[|block| - 1])]
  {
  }

  lemma BlockParts(at: Cursor, block: seq<Byte>, inner: seq<Byte>)
    requires Plain(block) && |block| > 1 && at.bytes + |block| <= MAX_LINE_BYTES && inner == block[1..|block| - 1]
    ensures Reach(at, block) ==
            if at.bytes + |block| == MAX_LINE_BYTES then Cursor(0, true)
            else Cursor(at.bytes + |block|, at.continued)
    ensures Render(at, block) ==
            ((if at.bytes == 0 then [Stamp] else []) + [Data(block[0])])
            + (Payload(inner) + ([Data(block[|block| - 1])] + (if at.bytes + |block| == MAX_LINE_BYTES then [End] else [])))
  {
    var first, last := block[0], block[|block| - 1];
    assert first in block && last in block;
    assert block == [first] + (inner + [last]);
    var next := Cursor(at.bytes + 1, at.continued);
    var late := Cursor(at.bytes + 1 + |inner|, at.continued);
    EmitsFirst(at, first);
    RenderInner(next, inner);
    EmitsLast(late, last);
    RenderThree(at, [first], next, inner, late, [last]);
  }

  lemma EmitsFirst(at: Cursor, b: Byte)
    requires b != NEWLINE && at.bytes + 1 < MAX_LINE_BYTES
    ensures Reach(at, [b]) == Cursor(at.bytes + 1, at.continued)
    ensures Render(at, [b]) == (if at.bytes == 0 then [Stamp] else []) + [Data(b)]
  {
    RenderOne(at, b);
  }

  lemma EmitsLast(at: Cursor, b: Byte)
    requires b != NEWLINE && 0 < at.bytes < MAX_LINE_BYTES
    ensures Reach(at, [b]) == if at.bytes + 1 == MAX_LINE_BYTES then Cursor(0, true) else Cursor(at.bytes + 1, at.continued)
    ensures Render(at, [b]) == [Data(b)] + (if at.bytes + 1 == MAX_LINE_BYTES then [End] else [])
  {
    RenderOne(at, b);
  }

  lemma RenderThree(at: Cursor, a: seq<Byte>, next: Cursor, b: seq<Byte>, late: Cursor, c: seq<Byte>)
    requires Reach(at, a) == next && Reach(next, b) == late
    ensures Reach(at, a + (b + c)) == Reach(late, c)
    ensures Render(at, a + (b + c)) == Render(at, a) + (Render(next, b) + Render(late, c))
  {
    RenderConcat(at, a, b + c);
    RenderConcat(next, b, c);
  }

  lemma Frame<T>(a: seq<T>, x: T, b: seq<T>, y: T, c: seq<T>)
    ensures (a + [x]) + (b + ([y] + c)) == a + ([x] + b + [y]) + c
  {
  }

  // An independent reference: what one input line looks like in the log.

  /** One input line, in stamped pieces of at most `MAX_LINE_BYTES`. */
  function Pieces(line: seq<Byte>): seq<Mark>
    decreases |line|
  {
    if |line| <= 8192 then [Stamp] + Payload(line) + [End]
    else [Stamp] + Payload(line[..8192]) + [End] + Pieces(line[8192..])
  }

  /** The log of a terminated line is its pieces, whatever follows. */
  lemma {:induction false} LineByLine(line: seq<Byte>, rest: seq<Byte>)
    requires Plain(line)
    ensures Render(FRESH, line + [NEWLINE] + rest) == Pieces(line) + Render(FRESH, rest)
    ensures Reach(FRESH, line + [NEWLINE] + rest) == Reach(FRESH, rest)
  {
    EndOfLine(Reach(FRESH, line));
    RenderConcat(FRESH, line + [NEWLINE], rest);
    RenderConcat(FRESH, line, [NEWLINE]);
    if line == [] {
      assert Render(FRESH, [NEWLINE]) == [Stamp, End];
      assert Payload(line) == [];
      assert line + [NEWLINE] == [NEWLINE];
    } else {
      WholeLine(FRESH, line);
    }
  }

  /** From the start of an output line, a nonempty input line and its end. */
  lemma {:induction false} WholeLine(at: Cursor, line: seq<Byte>)
    requires at.bytes == 0 && Plain(line) && line != []
    ensures Render(at, line) + Closing(Reach(at, line)) == Pieces(line)
    ensures Render(Reach(at, line), [NEWLINE]) == Closing(Reach(at, line))
    ensures Reach(Reach(at, line), [NEWLINE]) == FRESH
    decreases |line|
  {
    if |line| <= MAX_LINE_BYTES {
      RenderBlock(at, line);
      EndOfLine(Reach(at, line));
    } else {
      var a, b := line[..MAX_LINE_BYTES], line[MAX_LINE_BYTES..];
      assert line == a + b;
      RenderConcat(at, a, b);
      RenderBlock(at, a);
      WholeLine(Cursor(0, true), b);
    }
  }

  lemma EndOfLine(at: Cursor)
    ensures Reach(at, [NEWLINE]) == FRESH
    ensures at.bytes > 0 || at.continued ==> Render(at, [NEWLINE]) == Closing(at)
  {
    assert Render(at, [NEWLINE]) == Emit(at, NEWLINE) + Render(FRESH, []);
  }

  /** Closing the log ends an unterminated last line exactly as a newline would. */
  lemma LastLine(line: seq<Byte>)
    requires Plain(line)
    ensures Render(FRESH, line) + Closing(Reach(FRESH, line)) == (if line == [] then [] else Pieces(line))
  {
    if line != [] { WholeLine(FRESH, line); }
  }

  function Join(lines: seq<seq<Byte>>): seq<Byte> {
    if lines == [] then [] else lines[0] + [NEWLINE] + Join(lines[1..])
  }

  function AllPieces(lines: seq<seq<Byte>>): seq<Mark> {
    if lines == [] then [] else Pieces(lines[0]) + AllPieces(lines[1..])
  }

  /** The closed log of any input is the pieces of its lines, in order. */
  lemma {:induction false} LogIsPieces(lines: seq<seq<Byte>>, last: seq<Byte>)
    requires Plain(last) && forall i :: 0 <= i < |lines| ==> Plain(lines[i])
    ensures var input := Join(lines) + last;
            Render(FRESH, input) + Closing(Reach(FRESH, input))
            == AllPieces(lines) + (if last == [] then [] else Pieces(last))
  {
    if lines == [] {
      LastLine(last);
      assert Join(lines) + last == last;
    } else {
      var rest := Join(lines[1..]) + last;
      LogIsPieces(lines[1..], last);
      JoinFirst(lines[0], Join(lines[1..]), last);
      OneLineMore(lines[0], rest, AllPieces(lines[1..]), if last == [] then [] else Pieces(last));
    }
  }

  lemma JoinFirst(line: seq<Byte>, more: seq<Byte>, last: seq<Byte>)
    ensures (line + [NEWLINE] + more) + last == line + [NEWLINE] + (more + last)
  {
  }

  lemma OneLineMore(line: seq<Byte>, rest: seq<Byte>, d: seq<Mark>, e: seq<Mark>)
    requires Plain(line) && Render(FRESH, rest) + Closing(Reach(FRESH, rest)) == d + e
    ensures var input := line + [NEWLINE] + rest;
            Render(FRESH, input) + Closing(Reach(FRESH, input)) == (Pieces(line) + d) + e
  {
    LineByLine(line, rest);
    Regroup(Pieces(line), Render(FRESH, rest), Closing(Reach(FRESH, rest)), d, e);
  }

  lemma Regroup(a: seq<Mark>, b: seq<Mark>, c: seq<Mark>, d: seq<Mark>, e: seq<Mark>)
    requires b + c == d + e
    ensures (a + b) + c == (a + d) + e
  {
    assert (a + b) + c == a + (b + c);
    assert (a + d) + e == a + (d + e);
  }

  /** Where a reader of the log stands: between output lines, or after `n` payload bytes. */
  datatype Spot = Between | Inside(n: nat)

  /** Where one mark takes a reader, if it may stand there. */
  function Pass(at: Spot, mark: Mark): Option<Spot> {
    match mark
    case Stamp => if at == Between then Some(Inside(0)) else None
    case Data(b) => if at.Inside? && at.n < 8192 && b != NEWLINE then Some(Inside(at.n + 1)) else None
    case End => if at.Inside? then Some(Between) else None
  }

  /** Every output line is one stamp, at most `MAX_LINE_BYTES` payload bytes, one end. */
  predicate Tidy(at: Spot, marks: seq<Mark>)
    decreases |marks|
  {
    marks == [] || (Pass(at, marks[0]).Some? && Tidy(Pass(at, marks[0]).value, marks[1..]))
  }

  function SpotOf(at: Cursor): Spot { if at.bytes == 0 then Between else Inside(at.bytes) }

  /** Where a reader stands after some marks. */
  function Land(at: Spot, marks: seq<Mark>): Spot
    requires Tidy(at, marks)
    decreases |marks|
  {
    if marks == [] then at else Land(Pass(at, marks[0]).value, marks[1..])
  }

  lemma {:induction false} TidyConcat(at: Spot, a: seq<Mark>, b: seq<Mark>)
    requires Tidy(at, a) && Tidy(Land(at, a), b)
    ensures Tidy(at, a + b)
    decreases |a|
  {
    if a == [] {
      assert a + b == b;
    } else {
      assert (a + b)[0] == a[0] && (a + b)[1..] == a[1..] + b;
      TidyConcat(Pass(at, a[0]).value, a[1..], b);
    }
  }

  lemma EmitIsTidy(at: Cursor, b: Byte)
    requires at.bytes < MAX_LINE_BYTES
    ensures Tidy(SpotOf(at), Emit(at, b)) && Land(SpotOf(at), Emit(at, b)) == SpotOf(Move(at, b))
  {
    var marks := Emit(at, b);
    if b == NEWLINE && at.bytes == 0 && !at.continued {
      LandTwo(Between, Stamp, End);
    } else if b != NEWLINE && at.bytes == 0 {
      assert marks == [Stamp, Data(b)];
      LandTwo(Between, Stamp, Data(b));
    } else if b != NEWLINE && at.bytes + 1 == MAX_LINE_BYTES {
      assert marks == [Data(b), End];
      LandTwo(Inside(at.bytes), Data(b), End);
    }
  }

  lemma LandTwo(at: Spot, x: Mark, y: Mark)
    requires Pass(at, x).Some? && Pass(Pass(at, x).value, y).Some?
    ensures Tidy(at, [x, y]) && Land(at, [x, y]) == Pass(Pass(at, x).value, y).value
  {
    assert [x, y][1..] == [y] && [y][1..] == [];
    assert Tidy(Pass(at, x).value, [y]) && Land(Pass(at, x).value, [y]) == Pass(Pass(at, x).value, y).value;
  }

  lemma {:induction false} LinesAreBounded(at: Cursor, input: seq<Byte>)
    requires at.bytes < MAX_LINE_BYTES
    ensures Tidy(SpotOf(at), Render(at, input))
    decreases |input|
  {
    if input != [] {
      LinesAreBounded(Move(at, input[0]), input[1..]);
      EmitIsTidy(at, input[0]);
      TidyConcat(SpotOf(at), Emit(at, input[0]), Render(Move(at, input[0]), input[1..]));
    }
  }

  function DataOf(marks: seq<Mark>): seq<Byte> {
    if marks == [] then [] else (if marks[0].Data? then [marks[0].b] else []) + DataOf(marks[1..])
  }

  function WithoutNewlines(input: seq<Byte>): seq<Byte> {
    if input == [] then [] else (if input[0] == NEWLINE then [] else [input[0]]) + WithoutNewlines(input[1..])
  }

  lemma {:induction false} DataConcat(a: seq<Mark>, b: seq<Mark>)
    ensures DataOf(a + b) == DataOf(a) + DataOf(b)
  {
    if a == [] {
      assert a + b == b;
    } else {
      DataConcat(a[1..], b);
      assert (a + b)[1..] == a[1..] + b;
    }
  }

  /** No payload byte is lost, added or moved. */
  lemma {:induction false} NothingIsLost(at: Cursor, input: seq<Byte>)
    ensures DataOf(Render(at, input)) == WithoutNewlines(input)
    decreases |input|
  {
    if input != [] {
      NothingIsLost(Move(at, input[0]), input[1..]);
      DataConcat(Emit(at, input[0]), Render(Move(at, input[0]), input[1..]));
      assert DataOf(Emit(at, input[0])) == (if input[0] == NEWLINE then [] else [input[0]]);
    }
  }

  // Bytes. A stamp is any 24-character time and a space.

  predicate IsStamp(text: seq<Byte>) { |text| == STAMP_BYTES && text[24] == 32 && Plain(text) }

  predicate Spells(text: seq<Byte>, marks: seq<Mark>)
    decreases |marks|
  {
    if marks == [] then text == []
    else
      match marks[0]
      case Stamp => |text| >= STAMP_BYTES && IsStamp(text[..STAMP_BYTES]) && Spells(text[STAMP_BYTES..], marks[1..])
      case Data(b) => |text| >= 1 && text[0] == b && Spells(text[1..], marks[1..])
      case End => |text| >= 1 && text[0] == NEWLINE && Spells(text[1..], marks[1..])
  }

  lemma {:induction false} SpellsConcat(a: seq<Byte>, m: seq<Mark>, b: seq<Byte>, n: seq<Mark>)
    requires Spells(a, m) && Spells(b, n)
    ensures Spells(a + b, m + n)
    decreases |m|
  {
    if m == [] {
      assert a + b == b && m + n == n;
    } else {
      var k := if m[0].Stamp? then STAMP_BYTES else 1;
      SpellsConcat(a[k..], m[1..], b, n);
      assert (a + b)[k..] == a[k..] + b && (a + b)[..k] == a[..k];
      assert (m + n)[1..] == m[1..] + n;
    }
  }

  lemma {:induction false} SpellsPayload(data: seq<Byte>)
    ensures Spells(data, Payload(data))
  {
    if data != [] {
      SpellsPayload(data[1..]);
      assert Payload(data)[1..] == Payload(data[1..]);
    }
  }

  /** Which byte positions of a spelling belong to stamps. */
  predicate InStamp(marks: seq<Mark>, i: int)
    decreases |marks|
  {
    marks != [] &&
    if marks[0].Stamp? then 0 <= i < STAMP_BYTES || InStamp(marks[1..], i - STAMP_BYTES)
    else InStamp(marks[1..], i - 1)
  }

  /** Two spellings of one log have the same length and differ at most inside stamps. */
  lemma {:induction false} SpellingsAgree(a: seq<Byte>, b: seq<Byte>, marks: seq<Mark>)
    requires Spells(a, marks) && Spells(b, marks)
    ensures |a| == |b|
    ensures forall i :: 0 <= i < |a| && !InStamp(marks, i) ==> a[i] == b[i]
    decreases |marks|
  {
    if marks != [] {
      var k := if marks[0].Stamp? then STAMP_BYTES else 1;
      SpellingsAgree(a[k..], b[k..], marks[1..]);
      forall i | 0 <= i < |a| && !InStamp(marks, i) ensures a[i] == b[i] {
        if i >= k { assert a[k..][i - k] == b[k..][i - k]; }
      }
    }
  }

  /** What fits of `text` after `head` in a file of `maximum` bytes. */
  function Clip(head: seq<Byte>, text: seq<Byte>, maximum: nat): seq<Byte> {
    if |head| >= maximum then head
    else if |head| + |text| <= maximum then head + text
    else head + text[..maximum - |head|]
  }

  lemma ClipAppend(head: seq<Byte>, text: seq<Byte>, more: seq<Byte>, maximum: nat)
    ensures var before := Clip(head, text, maximum);
            var room := if |before| < maximum then maximum - |before| else 0;
            Clip(head, text + more, maximum) == before + (if |more| <= room then more else more[..room])
  {
  }

  /** The first newline at or after `offset`, or -1. */
  method Find(data: seq<Byte>, offset: nat) returns (at: int)
    requires offset <= |data|
    ensures at == -1 ==> Plain(data[offset..])
    ensures at != -1 ==> offset <= at < |data| && data[at] == NEWLINE && Plain(data[offset..at])
  {
    at := offset;
    while at < |data|
      invariant offset <= at <= |data| && Plain(data[offset..at])
    {
      if data[at] == NEWLINE { return; }
      assert data[offset..at + 1] == data[offset..at] + [data[at]];
      at := at + 1;
    }
    assert data[offset..at] == data[offset..];
    at := -1;
  }

  /** The stamp, if these bytes open an output line. */
  function Opening(at: Cursor, block: seq<Byte>, stamp: seq<Byte>): seq<Byte> {
    if at.bytes == 0 && (|block| > 0 || !at.continued) then stamp else []
  }

  /** The end of line, if a newline was reached or `bytes` fill the line. */
  function Ending(bytes: nat, continued: bool, newline: bool): seq<Byte> {
    if newline then if bytes > 0 || !continued then [NEWLINE] else []
    else if bytes == MAX_LINE_BYTES then [NEWLINE] else []
  }

  /** What one turn of the loop writes. */
  function Turn(at: Cursor, block: seq<Byte>, newline: bool, stamp: seq<Byte>): seq<Byte> {
    Opening(at, block, stamp) + block + Ending(at.bytes + |block|, at.continued, newline)
  }

  function Consumed(block: seq<Byte>, newline: bool): seq<Byte> { if newline then block + [NEWLINE] else block }

  /** One turn spells exactly what the specification renders for the bytes it consumes. */
  lemma TurnSpells(at: Cursor, block: seq<Byte>, newline: bool, stamp: seq<Byte>)
    requires at.bytes < MAX_LINE_BYTES && at.bytes + |block| <= MAX_LINE_BYTES
    requires Plain(block) && IsStamp(stamp) && (newline || |block| > 0)
    ensures Spells(Turn(at, block, newline, stamp), Render(at, Consumed(block, newline)))
    ensures Reach(at, Consumed(block, newline)) ==
            if newline then FRESH
            else if at.bytes + |block| == MAX_LINE_BYTES then Cursor(0, true)
            else Cursor(at.bytes + |block|, at.continued)
  {
    SpellsPayload(block);
    assert Spells([NEWLINE], [End]);
    assert stamp[..STAMP_BYTES] == stamp && stamp[STAMP_BYTES..] == [];
    assert Spells(stamp, [Stamp]);
    if block == [] {
      assert Consumed(block, newline) == [NEWLINE];
      assert Render(at, [NEWLINE]) == Emit(at, NEWLINE) + Render(FRESH, []);
      SpellsConcat(stamp, [Stamp], [NEWLINE], [End]);
      assert [Stamp] + [End] == [Stamp, End];
    } else {
      TurnOfBlock(at, block, newline, stamp);
    }
  }

  /** The marks of a nonempty block and what follows it. */
  lemma RenderTurn(at: Cursor, block: seq<Byte>, newline: bool)
    requires at.bytes + |block| <= MAX_LINE_BYTES && Plain(block) && block != []
    ensures Render(at, Consumed(block, newline)) ==
            (if at.bytes == 0 then [Stamp] else []) + Payload(block)
            + (if newline || at.bytes + |block| == MAX_LINE_BYTES then [End] else [])
    ensures Reach(at, Consumed(block, newline)) ==
            if newline then FRESH
            else if at.bytes + |block| == MAX_LINE_BYTES then Cursor(0, true)
            else Cursor(at.bytes + |block|, at.continued)
  {
    RenderBlock(at, block);
    if newline {
      RenderConcat(at, block, [NEWLINE]);
      EndOfLine(Reach(at, block));
    }
  }

  lemma TurnOfBlock(at: Cursor, block: seq<Byte>, newline: bool, stamp: seq<Byte>)
    requires at.bytes + |block| <= MAX_LINE_BYTES && Plain(block) && block != []
    requires Spells(stamp, [Stamp]) && Spells(block, Payload(block)) && Spells([NEWLINE], [End])
    ensures Spells(Turn(at, block, newline, stamp), Render(at, Consumed(block, newline)))
    ensures Reach(at, Consumed(block, newline)) ==
            if newline then FRESH
            else if at.bytes + |block| == MAX_LINE_BYTES then Cursor(0, true)
            else Cursor(at.bytes + |block|, at.continued)
  {
    RenderTurn(at, block, newline);
    var ends := newline || at.bytes + |block| == MAX_LINE_BYTES;
    var opening, m := if at.bytes == 0 then stamp else [], if at.bytes == 0 then [Stamp] else [];
    var closing, n := if ends then [NEWLINE] else [], if ends then [End] else [];
    SpellsConcat(opening, m, block, Payload(block));
    SpellsConcat(opening + block, m + Payload(block), closing, n);
    assert Turn(at, block, newline, stamp) == opening + block + closing;
  }

  /** One turn extends a log of `input` to a log of `input` and the bytes consumed. */
  lemma TurnExtends(input: seq<Byte>, text: seq<Byte>, block: seq<Byte>, newline: bool, stamp: seq<Byte>)
    requires var at := Reach(FRESH, input);
             && at.bytes < MAX_LINE_BYTES && at.bytes + |block| <= MAX_LINE_BYTES
             && Plain(block) && IsStamp(stamp) && (newline || |block| > 0)
    requires Spells(text, Render(FRESH, input))
    ensures var at := Reach(FRESH, input);
            && Spells(text + Turn(at, block, newline, stamp), Render(FRESH, input + Consumed(block, newline)))
            && Reach(FRESH, input + Consumed(block, newline)) ==
               if newline then FRESH
               else if at.bytes + |block| == MAX_LINE_BYTES then Cursor(0, true)
               else Cursor(at.bytes + |block|, at.continued)
  {
    var at := Reach(FRESH, input);
    TurnSpells(at, block, newline, stamp);
    RenderConcat(FRESH, input, Consumed(block, newline));
    SpellsConcat(text, Render(FRESH, input), Turn(at, block, newline, stamp), Render(at, Consumed(block, newline)));
  }

  class TimestampedBuildLog {
    var destination: seq<Byte>
    const maximum: nat
    var lineBytes: nat
    var continued: bool
    var closed: bool

    /** What the file held at first, everything written, and the unbounded log of it. */
    ghost const head: seq<Byte>
    ghost var input: seq<Byte>
    ghost var text: seq<Byte>

    ghost predicate Valid()
      reads this
    {
      && lineBytes < MAX_LINE_BYTES
      && destination == Clip(head, text, maximum)
      && if closed then
           lineBytes == 0 && Spells(text, Render(FRESH, input) + Closing(Reach(FRESH, input)))
         else
           Cursor(lineBytes, continued) == Reach(FRESH, input) && Spells(text, Render(FRESH, input))
    }

    constructor (destination: seq<Byte>, maximum: nat)
      ensures Valid() && !closed && input == [] && head == destination && this.maximum == maximum
    {
      this.destination := destination;
      this.maximum := maximum;
      lineBytes, continued, closed := 0, false, false;
      head, input, text := destination, [], [];
    }

    /** Append what fits; the ghost text grows by all of it. */
    method Record(data: seq<Byte>)
      requires destination == Clip(head, text, maximum)
      modifies this`destination, this`text
      ensures destination == Clip(head, text, maximum) && text == old(text) + data
    {
      var room := if |destination| < maximum then maximum - |destination| else 0;
      ClipAppend(head, text, data, maximum);
      if room > 0 {
        destination := destination + (if |data| <= room then data else data[..room]);
      }
      text := text + data;
    }

    /** A block that fits on the open line, stamped if it opens one. */
    method Fill(block: seq<Byte>, stamp: seq<Byte>)
      requires destination == Clip(head, text, maximum)
      modifies this`destination, this`text, this`lineBytes
      ensures destination == Clip(head, text, maximum)
      ensures text == old(text) + (Opening(Cursor(old(lineBytes), continued), block, stamp) + block)
      ensures lineBytes == old(lineBytes) + |block|
    {
      if |block| > 0 || !continued {
        if lineBytes == 0 { Record(stamp); }
        Record(block);
        lineBytes := lineBytes + |block|;
      }
    }

    /** End the output line at an input newline, or because it is full. */
    method Finish(newline: bool)
      requires destination == Clip(head, text, maximum)
      modifies this`destination, this`text, this`lineBytes, this`continued
      ensures destination == Clip(head, text, maximum)
      ensures text == old(text) + Ending(old(lineBytes), old(continued), newline)
      ensures Cursor(lineBytes, continued) ==
              if newline then FRESH
              else if old(lineBytes) == MAX_LINE_BYTES then Cursor(0, true)
              else Cursor(old(lineBytes), old(continued))
    {
      if newline {
        if lineBytes > 0 || !continued { Record([NEWLINE]); }
        lineBytes, continued := 0, false;
      } else if lineBytes == MAX_LINE_BYTES {
        Record([NEWLINE]);
        lineBytes, continued := 0, true;
      }
    }

    /** One turn of the writing loop. */
    method Put(block: seq<Byte>, newline: bool, stamp: seq<Byte>)
      requires Valid() && !closed && lineBytes + |block| <= MAX_LINE_BYTES
      requires Plain(block) && IsStamp(stamp) && (newline || |block| > 0)
      modifies this
      ensures Valid() && !closed && input == old(input) + Consumed(block, newline)
    {
      ghost var before, at := text, Cursor(lineBytes, continued);
      TurnExtends(input, text, block, newline, stamp);
      Fill(block, stamp);
      Finish(newline);
      Gather(before, Opening(at, block, stamp) + block, Ending(at.bytes + |block|, at.continued, newline), text);
      input := input + Consumed(block, newline);
    }

    /** `now` supplies the time of each stamp. */
    method Write(data: seq<Byte>, now: nat -> seq<Byte>) returns (count: nat)
      requires Valid() && !closed
      requires forall i :: IsStamp(now(i))
      modifies this
      ensures Valid() && !closed && count == |data|
      ensures input == old(input) + data
    {
      var offset, tick := 0, 0;
      assert input + data[..0] == input;
      while offset < |data|
        invariant 0 <= offset <= |data|
        invariant Valid() && !closed && input == old(input) + data[..offset]
      {
        var newline := Find(data, offset);
        var end := if newline == -1 then |data| else newline;
        var room := MAX_LINE_BYTES - lineBytes;
        var count := if end - offset <= room then end - offset else room;
        var hit := offset + count == newline;
        PlainPart(data, offset, count, end);
        SliceGrows(old(input), data, offset, count, hit);
        Put(data[offset..offset + count], hit, now(tick));
        offset, tick := offset + count + (if hit then 1 else 0), tick + 1;
      }
      count := |data|;
      assert data[..offset] == data;
    }

    /** The open line, if any, is ended once. */
    method Close()
      requires Valid()
      modifies this
      ensures Valid() && closed && input == old(input)
    {
      if !closed && lineBytes > 0 {
        SpellsConcat(text, Render(FRESH, input), [NEWLINE], [End]);
        Record([NEWLINE]);
        lineBytes := 0;
      } else if !closed {
        assert Render(FRESH, input) + [] == Render(FRESH, input);
      }
      closed := true;
    }
  }

  /** Two logs of one input in equal files, however it was cut into writes and whenever those
      happened, have the same length and differ at most inside their stamps. */
  lemma ChunkingIsInvisible(a: TimestampedBuildLog, b: TimestampedBuildLog, i: nat)
    requires a.Valid() && b.Valid() && a.head == b.head && a.maximum == b.maximum && a.input == b.input && a.closed == b.closed
    ensures |a.destination| == |b.destination|
    ensures i < |a.destination| ==>
              a.destination[i] == b.destination[i]
              || InStamp(Render(FRESH, a.input) + (if a.closed then Closing(Reach(FRESH, a.input)) else []), i - |a.head|)
  {
    var marks := Render(FRESH, a.input) + (if a.closed then Closing(Reach(FRESH, a.input)) else []);
    assert Spells(a.text, marks) && Spells(b.text, marks) by {
      assert Render(FRESH, a.input) + [] == Render(FRESH, a.input);
    }
    SpellingsAgree(a.text, b.text, marks);
  }

  lemma Gather(before: seq<Byte>, a: seq<Byte>, b: seq<Byte>, text: seq<Byte>)
    requires text == (before + a) + b
    ensures text == before + (a + b)
  {
  }

  lemma SliceGrows(before: seq<Byte>, data: seq<Byte>, offset: nat, count: nat, hit: bool)
    requires offset + count <= |data| && (hit ==> offset + count < |data| && data[offset + count] == NEWLINE)
    ensures (before + data[..offset]) + Consumed(data[offset..offset + count], hit)
            == before + data[..offset + count + (if hit then 1 else 0)]
  {
  }

  lemma PlainPart(data: seq<Byte>, from: nat, count: nat, end: nat)
    requires from + count <= end <= |data| && Plain(data[from..end])
    ensures Plain(data[from..from + count])
  {
    assert data[from..from + count] == data[from..end][..count];
  }
}
