/** The RGB backlit 2x16 character display on an I2C port: the value
    written to it, the colour register sequence and the text layout loop. */
module Display {
  import opened Common
  import opened Calls

  datatype RGBColor = RGBColor(red: byte, green: byte, blue: byte)

  /** `RGBColor(red:green:blue:)`, every component defaulting to 0. */
  function MakeColor(red: byte := 0, green: byte := 0, blue: byte := 0): (c: RGBColor)
    ensures c.red == red && c.green == green && c.blue == blue
  {
    RGBColor(red, green, blue)
  }

  /** What one write to the display changes: the backlight colour, the
      text, or both; `noRefresh` keeps the display from being cleared. */
  datatype DisplayText = DisplayText(rgbColor: Option<RGBColor>, text: Option<string>, noRefresh: bool)

  /** `init(rgbColor:)`: a colour-only change. */
  function ColorOnly(rgbColor: RGBColor): (d: DisplayText)
    ensures d.rgbColor == Some(rgbColor) && d.text.None? && !d.noRefresh
  {
    DisplayText(Some(rgbColor), None, false)
  }

  /** `init(text:noRefresh:)`: a text-only change. */
  function TextOnly(text: string, noRefresh: bool := false): (d: DisplayText)
    ensures d.rgbColor.None? && d.text == Some(text) && d.noRefresh == noRefresh
  {
    DisplayText(None, Some(text), noRefresh)
  }

  /** `init(rgbColor:text:noRefresh:)`: colour and text. */
  function ColorAndText(rgbColor: RGBColor, text: string, noRefresh: bool := false): (d: DisplayText)
    ensures d.rgbColor == Some(rgbColor) && d.text == Some(text) && d.noRefresh == noRefresh
  {
    DisplayText(Some(rgbColor), Some(text), noRefresh)
  }

  const DisplayRGBAddress: byte := 0x62
  const DisplayTextAddress: byte := 0x3E
  const TextCommand: byte := 0x80
  const DataCommand: byte := 0x40
  const Newline: byte := 0x0A
  /** Characters per row; the display has two rows. */
  const Columns: nat := 16

  /** The command that moves the cursor to the start of the second row. */
  const LineBreak: BusOp := RegisterWrite(TextCommand, 0xC0)

  /** Writes one character at the cursor. */
  function DataWrite(b: byte): BusOp {
    RegisterWrite(DataCommand, b)
  }

  /** `write(rgbColor:)`: select the colour controller, initialise it and
      write red, green and blue to registers 4, 3 and 2. */
  function ColorOps(c: RGBColor): (ops: seq<BusOp>)
    ensures |ops| == 7 && ops[0] == SelectAddress(DisplayRGBAddress)
    ensures ops[4..] == [RegisterWrite(4, c.red), RegisterWrite(3, c.green), RegisterWrite(2, c.blue)]
  {
    [SelectAddress(DisplayRGBAddress),
     RegisterWrite(0, 0), RegisterWrite(1, 0), RegisterWrite(0x08, 0xAA),
     RegisterWrite(4, c.red), RegisterWrite(3, c.green), RegisterWrite(2, c.blue)]
  }

  /** The commands that open every text write: select the text controller,
      clear (or, with noRefresh, return home), display on without cursor,
      two-line mode. */
  function TextPreamble(noRefresh: bool): (ops: seq<BusOp>)
    ensures |ops| == 4 && ops[0] == SelectAddress(DisplayTextAddress)
    ensures ops[1] == RegisterWrite(TextCommand, if noRefresh then 0x02 else 0x01)
  {
    [SelectAddress(DisplayTextAddress),
     RegisterWrite(TextCommand, if noRefresh then 0x02 else 0x01),
     RegisterWrite(TextCommand, 0x0C),
     RegisterWrite(TextCommand, 0x28)]
  }

  /** The text can be encoded in ISO Latin 1. */
  function IsLatin1(text: string): (b: bool)
    ensures b ==> forall i :: 0 <= i < |text| ==> 0 <= text[i] as int < 256
    ensures !b ==> exists i :: 0 <= i < |text| && text[i] as int >= 256
  {
    forall i :: 0 <= i < |text| ==> text[i] as int < 256
  }

  /** `cString(using: .isoLatin1)`: nothing for a text outside ISO Latin 1,
      else one byte per character and a terminating zero byte. */
  function CString(text: string): (r: Option<seq<byte>>)
    ensures r.Some? <==> IsLatin1(text)
    ensures r.Some? ==> |r.value| == |text| + 1 && r.value[|text|] == 0
    ensures r.Some? ==> forall i :: 0 <= i < |text| ==> r.value[i] == text[i] as int
  {
    if IsLatin1(text)
    then Some(seq(|text|, i requires 0 <= i < |text| && IsLatin1(text) => text[i] as int as byte) + [0])
    else None
  }

  /** A character write whose C character, a signed byte, is negative: a
      Latin 1 character from 128 on, which `UInt8(_:)` traps on before the
      call is made. */
  predicate NegativeCharacterWrite(op: BusOp) {
    op.RegisterWrite? && op.register == DataCommand && op.value >= 128
  }

  /** The layout of the text loop, from a cursor at (column, row): a newline
      or a full row moves to the second row, or ends the text if the cursor
      is already there; a newline itself is never written. */
  function Layout(bs: seq<byte>, column: nat, row: nat): seq<BusOp>
    decreases |bs|
  {
    if |bs| == 0 then []
    else if bs[0] == Newline || column == Columns then
      if row == 1 then []
      else if bs[0] == Newline then [LineBreak] + Layout(bs[1..], 0, row + 1)
      else [LineBreak, DataWrite(bs[0])] + Layout(bs[1..], 1, row + 1)
    else [DataWrite(bs[0])] + Layout(bs[1..], column + 1, row)
  }

  /** The characters written by a sequence of display operations. */
  function DataBytes(ops: seq<BusOp>): seq<byte> {
    if |ops| == 0 then []
    else
      (if ops[0].RegisterWrite? && ops[0].register == DataCommand then [ops[0].value] else [])
      + DataBytes(ops[1..])
  }

  /** The bytes that are not newlines, in order. */
  function NonNewlines(bs: seq<byte>): seq<byte> {
    if |bs| == 0 then []
    else
      (if bs[0] == Newline then [] else [bs[0]]) + NonNewlines(bs[1..])
  }

  /** The layout from position k of a byte sequence, by its first byte. */
  lemma LayoutStep(bs: seq<byte>, k: nat, column: nat, row: nat)
    requires k < |bs|
    ensures Layout(bs[k..], column, row)
      == if bs[k] == Newline || column == Columns then
           if row == 1 then []
           else if bs[k] == Newline then [LineBreak] + Layout(bs[k + 1..], 0, row + 1)
           else [LineBreak, DataWrite(bs[k])] + Layout(bs[k + 1..], 1, row + 1)
         else [DataWrite(bs[k])] + Layout(bs[k + 1..], column + 1, row)
  {
    assert bs[k..][0] == bs[k] && bs[k..][1..] == bs[k + 1..];
  }

  /** The layout's size: on the second row one operation at most per byte
      and no line break; from the first row at most one line break more. */
  lemma {:induction false} LayoutSize(bs: seq<byte>, column: nat, row: nat)
    requires row <= 1
    ensures row == 1 ==> LineBreak !in Layout(bs, column, row) && |Layout(bs, column, row)| <= |bs|
    ensures row == 0 ==> |Layout(bs, column, row)| <= |bs| + 1
    decreases |bs|
  {
    if |bs| > 0 {
      if bs[0] == Newline || column == Columns {
        if row == 0 {
          LayoutSize(bs[1..], if bs[0] == Newline then 0 else 1, 1);
        }
      } else {
        LayoutSize(bs[1..], column + 1, row);
      }
    }
  }

  /** A text write starts with the preamble, is only the preamble for a
      text outside ISO Latin 1, and adds at most two operations more than
      the text has characters. */
  lemma TextOpsShape(text: string, noRefresh: bool)
    ensures TextPreamble(noRefresh) <= TextOps(text, noRefresh)
    ensures !IsLatin1(text) ==> TextOps(text, noRefresh) == TextPreamble(noRefresh)
    ensures |TextOps(text, noRefresh)| <= |TextPreamble(noRefresh)| + |text| + 2
  {
    if IsLatin1(text) {
      LayoutSize(CString(text).value, 0, 0);
    }
  }

  /** The operations of a text write: the preamble, then, for an ISO Latin 1
      text, the layout of its C string from the top-left corner. */
  function TextOps(text: string, noRefresh: bool): seq<BusOp> {
    TextPreamble(noRefresh) + match CString(text) case None => [] case Some(charBytes) => Layout(charBytes, 0, 0)
  }

  /** `write(text:noRefresh:)`: the preamble, then a failure if the text is
      not ISO Latin 1, else the characters laid out over the two rows. The
      calls are planned here and made by `OtherWriteCommand`, which is where
      a negative C character traps. */
  method WriteText(text: string, noRefresh: bool) returns (ops: seq<BusOp>, outcome: Outcome)
    ensures outcome.Fail? <==> !IsLatin1(text)
    ensures outcome.Fail? ==>
      outcome.error == UnsupportedOutputValue("Text " + text + " contains non-ISO LATIN 1 characters")
    ensures ops == TextOps(text, noRefresh)
  {
    ops := TextPreamble(noRefresh);
    var charBytes := CString(text);
    if charBytes.None? {
      outcome := Fail(UnsupportedOutputValue("Text " + text + " contains non-ISO LATIN 1 characters"));
      assert ops == ops + [];
      return;
    }
    outcome := Pass;
    var written := WriteCharacters(charBytes.value);
    ops := ops + written;
  }

  /** The character loop of `write(text:noRefresh:)`, from the top-left
      corner: a newline or a full first row moves to the second row; a
      newline or a full row on the second row ends the text. */
  method WriteCharacters(charBytes: seq<byte>) returns (ops: seq<BusOp>)
    ensures ops == Layout(charBytes, 0, 0)
  {
    ops := [];
    var column, row := 0, 0;
    var k := 0;
    while k < |charBytes|
      invariant 0 <= k <= |charBytes|
      invariant column <= Columns && row <= 1
      invariant ops + Layout(charBytes[k..], column, row) == Layout(charBytes, 0, 0)
    {
      var charByte := charBytes[k];
      LayoutStep(charBytes, k, column, row);
      if charByte == Newline || column == Columns {
        if row == 1 {
          assert ops + [] == ops;
          break;
        }
        if charByte == Newline {
          Regroup(ops, [LineBreak], Layout(charBytes[k + 1..], 0, row + 1));
          ops := ops + [LineBreak];
          row, column := row + 1, 0;
          k := k + 1;
          continue;
        }
        Regroup(ops, [LineBreak, DataWrite(charByte)], Layout(charBytes[k + 1..], 1, row + 1));
        ops := ops + [LineBreak, DataWrite(charByte)];
        row, column := row + 1, 1;
      } else {
        Regroup(ops, [DataWrite(charByte)], Layout(charBytes[k + 1..], column + 1, row));
        ops := ops + [DataWrite(charByte)];
        column := column + 1;
      }
      k := k + 1;
    }
    if k == |charBytes| {
      assert charBytes[k..] == [] && ops + [] == ops;
    }
  }

  /** Moves the operations of one layout step from the pending part to
      the part already written. */
  lemma Regroup(done: seq<BusOp>, step: seq<BusOp>, pending: seq<BusOp>)
    ensures done + (step + pending) == (done + step) + pending
  {
  }


  /** The bus operations of a display write: the colour writes, if a colour
      is given, then the text writes, if a text is given. */
  function DisplayOps(value: DisplayText): (ops: seq<BusOp>)
    ensures value.rgbColor.Some? ==> |ops| >= 7 && ops[..7] == ColorOps(value.rgbColor.value)
    ensures value.rgbColor.Some? && value.text.Some? ==> ops[7..] == TextOps(value.text.value, value.noRefresh)
    ensures value.rgbColor.None? && value.text.None? ==> ops == []
  {
    (if value.rgbColor.Some? then ColorOps(value.rgbColor.value) else [])
      + (if value.text.Some? then TextOps(value.text.value, value.noRefresh) else [])
  }

  /** The write reaches a character write that traps: one among the calls
      made, every earlier call having passed. A character the loop never
      reaches, or one after a failing call, is never converted. */
  predicate Traps(value: DisplayText, calls: CallOutcomes) {
    exists op :: op in Sent(DisplayOps(value), calls) && NegativeCharacterWrite(op)
  }

  /** The outcome of the check a display write makes after its calls: only
      a text outside ISO Latin 1 fails it. */
  function DisplayOutcome(value: DisplayText): (outcome: Outcome)
    ensures outcome.Fail? <==> value.text.Some? && !IsLatin1(value.text.value)
    ensures outcome.Fail? ==>
      outcome.error == UnsupportedOutputValue("Text " + value.text.value + " contains non-ISO LATIN 1 characters")
  {
    if value.text.Some? && !IsLatin1(value.text.value)
    then Fail(UnsupportedOutputValue("Text " + value.text.value + " contains non-ISO LATIN 1 characters"))
    else Pass
  }

  /** `otherWriteCommandImplementation`: the colour write first, if a colour
      is given, then the text write, if a text is given. Every address
      selection and register write is a `try`: `calls` gives each call's
      outcome and the first failure ends the write. The text check comes
      after the text preamble, which is the last call made for a text
      outside ISO Latin 1, so it runs only when every call passed. */
  method OtherWriteCommand(value: DisplayText, calls: CallOutcomes) returns (sent: seq<BusOp>, outcome: Outcome)
    requires !Traps(value, calls)
    ensures sent == Sent(DisplayOps(value), calls)
    ensures outcome == SequenceOutcome(DisplayOps(value), calls, DisplayOutcome(value))
  {
    var ops := [];
    var check := Pass;
    if value.rgbColor.Some? {
      ops := ColorOps(value.rgbColor.value);
    }
    if value.text.Some? {
      var textOps;
      textOps, check := WriteText(value.text.value, value.noRefresh);
      ops := ops + textOps;
    }
    sent, outcome := PerformCalls(ops, calls, check);
  }

  /** A failing colour call ends a write of colour and text before any
      call of the text write. */
  lemma ColorFailureSkipsText(value: DisplayText, calls: CallOutcomes, i: nat)
    requires value.rgbColor.Some? && value.text.Some?
    requires i < 7 && calls(i).Fail?
    ensures Sent(DisplayOps(value), calls) == Sent(ColorOps(value.rgbColor.value), calls)
    ensures SequenceOutcome(DisplayOps(value), calls, DisplayOutcome(value)) == calls(|Sent(DisplayOps(value), calls)| - 1)
  {
    var color := ColorOps(value.rgbColor.value);
    var text := TextOps(value.text.value, value.noRefresh);
    assert DisplayOps(value) == color + text;
    FailureInFirstPart(color, text, calls, DisplayOutcome(value), i);
  }

  /** When every call passes, a text outside ISO Latin 1 fails the write
      after the colour writes and the text preamble, and no character is
      written. */
  lemma NonLatin1TextFailsAfterPreamble(value: DisplayText, calls: CallOutcomes)
    requires value.text.Some? && !IsLatin1(value.text.value)
    requires forall i :: 0 <= i < |DisplayOps(value)| ==> calls(i).Pass?
    ensures Sent(DisplayOps(value), calls)
      == (if value.rgbColor.Some? then ColorOps(value.rgbColor.value) else []) + TextPreamble(value.noRefresh)
    ensures SequenceOutcome(DisplayOps(value), calls, DisplayOutcome(value))
      == Fail(UnsupportedOutputValue("Text " + value.text.value + " contains non-ISO LATIN 1 characters"))
  {
    assert TextOps(value.text.value, value.noRefresh) == TextPreamble(value.noRefresh) + [];
  }

  /** A Latin 1 text without newlines whose characters from 128 on all lie
      beyond the 32 that the two rows hold never traps, whatever the calls'
      outcomes: the loop ends before it converts them. */
  lemma UnreachedCharactersNeverConverted(value: DisplayText, calls: CallOutcomes)
    requires value.text.Some? && IsLatin1(value.text.value) && |value.text.value| >= 2 * Columns
    requires forall i :: 0 <= i < |value.text.value| ==> value.text.value[i] != '\n'
    requires forall i :: 0 <= i < 2 * Columns ==> value.text.value[i] as int < 128
    ensures !Traps(value, calls)
  {
    var layout := Layout(CString(value.text.value).value, 0, 0);
    WritesOnlyFirstTwoRows(value.text.value);
    var color := if value.rgbColor.Some? then ColorOps(value.rgbColor.value) else [];
    var preamble := TextPreamble(value.noRefresh);
    var ops := DisplayOps(value);
    assert ops == color + (preamble + layout);
    assert forall op :: op in color ==> !NegativeCharacterWrite(op);
    assert forall op :: op in preamble ==> !NegativeCharacterWrite(op);
    NoNegativeWriteInConcat(preamble, layout);
    NoNegativeWriteInConcat(color, preamble + layout);
    NoNegativeWriteSent(ops, calls);
  }

  /** Two plans without a negative character write make none together. */
  lemma NoNegativeWriteInConcat(first: seq<BusOp>, second: seq<BusOp>)
    requires forall op :: op in first ==> !NegativeCharacterWrite(op)
    requires forall op :: op in second ==> !NegativeCharacterWrite(op)
    ensures forall op :: op in first + second ==> !NegativeCharacterWrite(op)
  {
  }

  /** Calls made from a plan without a negative character write include
      none either: they are among those planned. */
  lemma NoNegativeWriteSent(ops: seq<BusOp>, calls: CallOutcomes)
    requires forall op :: op in ops ==> !NegativeCharacterWrite(op)
    ensures forall op :: op in Sent(ops, calls) ==> !NegativeCharacterWrite(op)
  {
    var sent := Sent(ops, calls);
    forall op | op in sent ensures op in ops {
      var i :| 0 <= i < |sent| && sent[i] == op;
      assert ops[i] == op;
    }
  }

  /** The characters a text without newlines puts on the two rows are its
      first 32. */
  lemma WritesOnlyFirstTwoRows(text: string)
    requires IsLatin1(text) && |text| >= 2 * Columns
    requires forall i :: 0 <= i < |text| ==> text[i] != '\n'
    requires forall i :: 0 <= i < 2 * Columns ==> text[i] as int < 128
    ensures forall op :: op in Layout(CString(text).value, 0, 0) ==> !NegativeCharacterWrite(op)
  {
    var bs := CString(text).value;
    forall b | b in bs ensures b != Newline {
      var i :| 0 <= i < |bs| && bs[i] == b;
      if i < |text| {
        assert text[i] != '\n';
      }
    }
    LongTextTruncated(bs, 0);
    forall op | op in Layout(bs, 0, 0) && op.RegisterWrite? && op.register == DataCommand
      ensures op.value < 128
    {
      DataWriteInDataBytes(Layout(bs, 0, 0), op);
      var j :| 0 <= j < 2 * Columns && bs[j] == op.value;
      assert bs[j] == text[j] as int;
    }
  }

  /** The character of every data write of a sequence is among its data
      bytes. */
  lemma {:induction false} DataWriteInDataBytes(ops: seq<BusOp>, op: BusOp)
    requires op in ops && op.RegisterWrite? && op.register == DataCommand
    ensures op.value in DataBytes(ops)
  {
    if ops[0] != op {
      DataWriteInDataBytes(ops[1..], op);
    }
  }

  lemma DataBytesAppend(a: seq<BusOp>, b: seq<BusOp>)
    ensures DataBytes(a + b) == DataBytes(a) + DataBytes(b)
  {
    if |a| == 0 {
      assert a + b == b;
    } else {
      assert (a + b)[0] == a[0];
      assert (a + b)[1..] == a[1..] + b;
      DataBytesAppend(a[1..], b);
    }
  }

  /** Every operation of the layout is a line break or the write of a
      character that is not a newline. */
  lemma {:induction false} LayoutWritesOnlyCharactersAndBreaks(bs: seq<byte>, column: nat, row: nat)
    ensures forall op :: op in Layout(bs, column, row) ==>
      op == LineBreak || (op.RegisterWrite? && op.register == DataCommand && op.value != Newline)
  {
    if |bs| > 0 {
      if bs[0] == Newline || column == Columns {
        if row != 1 {
          LayoutWritesOnlyCharactersAndBreaks(bs[1..], if bs[0] == Newline then 0 else 1, row + 1);
        }
      } else {
        LayoutWritesOnlyCharactersAndBreaks(bs[1..], column + 1, row);
      }
    }
  }

  /** The characters written are the input's non-newline bytes, in order,
      up to the point where the text stops. */
  lemma {:induction false} LayoutWritesInputInOrder(bs: seq<byte>, column: nat, row: nat)
    ensures DataBytes(Layout(bs, column, row)) <= NonNewlines(bs)
  {
    if |bs| > 0 {
      var rest := NonNewlines(bs[1..]);
      if bs[0] == Newline || column == Columns {
        if row != 1 {
          if bs[0] == Newline {
            assert NonNewlines(bs) == rest;
            LayoutWritesInputInOrder(bs[1..], 0, row + 1);
            DataBytesAppend([LineBreak], Layout(bs[1..], 0, row + 1));
          } else {
            assert NonNewlines(bs) == [bs[0]] + rest;
            LayoutWritesInputInOrder(bs[1..], 1, row + 1);
            DataBytesAppend([LineBreak, DataWrite(bs[0])], Layout(bs[1..], 1, row + 1));
            assert DataBytes([LineBreak, DataWrite(bs[0])]) == [bs[0]] by {
              assert [LineBreak, DataWrite(bs[0])][1..] == [DataWrite(bs[0])];
            }
            PrefixCons(bs[0], DataBytes(Layout(bs[1..], 1, row + 1)), rest);
          }
        }
      } else {
        assert NonNewlines(bs) == [bs[0]] + rest;
        LayoutWritesInputInOrder(bs[1..], column + 1, row);
        DataBytesAppend([DataWrite(bs[0])], Layout(bs[1..], column + 1, row));
        PrefixCons(bs[0], DataBytes(Layout(bs[1..], column + 1, row)), rest);
      }
    }
  }

  /** A prefix stays a prefix when both sides get the same first byte. */
  lemma PrefixCons(x: byte, a: seq<byte>, b: seq<byte>)
    requires a <= b
    ensures [x] + a <= [x] + b
  {
    assert ([x] + b)[..|a| + 1] == [x] + a;
  }

  /** On the second row no line break is written and at most the remaining
      columns are filled. */
  lemma {:induction false} LastRowFits(bs: seq<byte>, column: nat)
    requires column <= Columns
    ensures LineBreak !in Layout(bs, column, 1)
    ensures |Layout(bs, column, 1)| <= Columns - column
  {
    if |bs| > 0 && !(bs[0] == Newline || column == Columns) {
      LastRowFits(bs[1..], column + 1);
    }
  }

  /** From the first row, the layout is at most the rest of that row, then
      possibly one line break (at index k) and at most one more row of 16
      characters: at most one line break and at most 32 characters in all. */
  lemma {:induction false} FirstRowThenLastRow(bs: seq<byte>, column: nat) returns (k: nat)
    requires column <= Columns
    ensures var ops := Layout(bs, column, 0);
      k <= |ops| && k <= Columns - column && LineBreak !in ops[..k] &&
      (k < |ops| ==> ops[k] == LineBreak && LineBreak !in ops[k + 1..] && |ops| - k - 1 <= Columns)
  {
    var ops := Layout(bs, column, 0);
    if |bs| == 0 {
      k := 0;
    } else if bs[0] == Newline || column == Columns {
      k := 0;
      var next := if bs[0] == Newline then 0 else 1;
      var last := Layout(bs[1..], next, 1);
      LastRowFits(bs[1..], next);
      if bs[0] == Newline {
        assert ops == [LineBreak] + last;
        assert ops[1..] == last;
      } else {
        assert ops == [LineBreak, DataWrite(bs[0])] + last;
        assert ops[1..] == [DataWrite(bs[0])] + last;
        assert LineBreak != DataWrite(bs[0]);
      }
    } else {
      var j := FirstRowThenLastRow(bs[1..], column + 1);
      var rest := Layout(bs[1..], column + 1, 0);
      assert ops == [DataWrite(bs[0])] + rest;
      assert LineBreak != DataWrite(bs[0]);
      k := j + 1;
      assert ops[..k] == [DataWrite(bs[0])] + rest[..j];
      if j < |rest| {
        assert ops[k] == rest[j];
        assert ops[k + 1..] == rest[j + 1..];
      }
    }
  }

  /** Text without newlines that fits the rest of the row is written whole. */
  lemma {:induction false} ShortLineWrittenWhole(bs: seq<byte>, column: nat, row: nat)
    requires Newline !in bs && column + |bs| <= Columns
    ensures DataBytes(Layout(bs, column, row)) == bs
    ensures LineBreak !in Layout(bs, column, row)
  {
    if |bs| > 0 {
      assert bs == [bs[0]] + bs[1..];
      assert bs[0] != Newline && Newline !in bs[1..];
      var rest := Layout(bs[1..], column + 1, row);
      assert Layout(bs, column, row) == [DataWrite(bs[0])] + rest;
      ShortLineWrittenWhole(bs[1..], column + 1, row);
      DataBytesAppend([DataWrite(bs[0])], rest);
      assert LineBreak != DataWrite(bs[0]);
    }
  }

  /** Text without newlines of up to 32 bytes is written whole over the two
      rows, wrapping after 16 characters. */
  lemma {:induction false} TwoRowsWrittenWhole(bs: seq<byte>, column: nat)
    requires Newline !in bs && column <= Columns && column + |bs| <= 2 * Columns
    ensures DataBytes(Layout(bs, column, 0)) == bs
  {
    if |bs| > 0 {
      assert bs[0] in bs;
      assert forall b :: b in bs[1..] ==> b in bs;
      if column == Columns {
        ShortLineWrittenWhole(bs[1..], 1, 1);
        DataBytesAppend([LineBreak, DataWrite(bs[0])], Layout(bs[1..], 1, 1));
        assert [LineBreak, DataWrite(bs[0])][1..] == [DataWrite(bs[0])];
      } else {
        TwoRowsWrittenWhole(bs[1..], column + 1);
        DataBytesAppend([DataWrite(bs[0])], Layout(bs[1..], column + 1, 0));
      }
    }
  }

  /** Text without newlines longer than two rows loses everything after the
      first 32 bytes. */
  lemma {:induction false} LongTextTruncated(bs: seq<byte>, column: nat)
    requires Newline !in bs && column <= Columns && column + |bs| > 2 * Columns
    ensures DataBytes(Layout(bs, column, 0)) == bs[..2 * Columns - column]
  {
    assert bs[0] in bs;
    assert forall b :: b in bs[1..] ==> b in bs;
    if column == Columns {
      LastRowTruncated(bs[1..], 1);
      DataBytesAppend([LineBreak, DataWrite(bs[0])], Layout(bs[1..], 1, 1));
      assert [LineBreak, DataWrite(bs[0])][1..] == [DataWrite(bs[0])];
      assert bs[..Columns] == [bs[0]] + bs[1..][..Columns - 1];
    } else {
      LongTextTruncated(bs[1..], column + 1);
      DataBytesAppend([DataWrite(bs[0])], Layout(bs[1..], column + 1, 0));
      assert bs[..2 * Columns - column] == [bs[0]] + bs[1..][..2 * Columns - column - 1];
    }
  }

  lemma {:induction false} LastRowTruncated(bs: seq<byte>, column: nat)
    requires Newline !in bs && column <= Columns && column + |bs| > Columns
    ensures DataBytes(Layout(bs, column, 1)) == bs[..Columns - column]
  {
    if column < Columns {
      assert bs[0] in bs;
      assert forall b :: b in bs[1..] ==> b in bs;
      LastRowTruncated(bs[1..], column + 1);
      DataBytesAppend([DataWrite(bs[0])], Layout(bs[1..], column + 1, 1));
      assert bs[..Columns - column] == [bs[0]] + bs[1..][..Columns - column - 1];
    }
  }

  /** As written, the loop runs over the C string including its terminating
      zero: a text of at most 31 characters without newlines ends with the
      write of a zero character. */
  lemma TerminatingZeroIsWritten(text: string)
    requires IsLatin1(text) && |text| < 2 * Columns
    requires forall i :: 0 <= i < |text| ==> text[i] != '\n'
    ensures DataBytes(Layout(CString(text).value, 0, 0)) == CString(text).value
    ensures DataBytes(Layout(CString(text).value, 0, 0))[|text|] == 0
  {
    var bs := CString(text).value;
    forall b | b in bs ensures b != Newline {
      var i :| 0 <= i < |bs| && bs[i] == b;
      if i < |text| {
        assert text[i] != '\n';
      }
    }
    TwoRowsWrittenWhole(bs, 0);
  }
}
