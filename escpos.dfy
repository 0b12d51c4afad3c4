/**
 * The ESC/POS command buffer: a list of byte chunks, one per formatter call,
 * whose concatenation is sent to an Epson-compatible receipt printer.
 */
module Escpos {
  import opened Text
  import opened Seqs

  /** The UTF-8 encoding of one Unicode scalar value. */
  function EncodeChar(c: char): (r: seq<byte>)
    ensures 1 <= |r| <= 4
    ensures (c as int < 0x80) <==> |r| == 1
    ensures c as int < 0x80 ==> r == [c as int]
    ensures |r| > 1 ==> 0xC0 <= r[0] && forall i :: 1 <= i < |r| ==> 0x80 <= r[i] < 0xC0
  {
    var cp := c as int;
    if cp < 0x80 then [cp]
    else if cp < 0x800 then [0xC0 + cp / 64, 0x80 + cp % 64]
    else if cp < 0x10000 then [0xE0 + cp / 4096, 0x80 + (cp / 64) % 64, 0x80 + cp % 64]
    else [0xF0 + cp / 262144, 0x80 + (cp / 4096) % 64, 0x80 + (cp / 64) % 64, 0x80 + cp % 64]
  }

  /** Buffer.from(text, 'utf8'). */
  function Utf8(s: string): (r: seq<byte>)
    ensures |r| >= |s|
  {
    if |s| == 0 then [] else Utf8(s[..|s| - 1]) + EncodeChar(s[|s| - 1])
  }

  predicate IsAscii(s: string) {
    forall i :: 0 <= i < |s| ==> s[i] as int < 0x80
  }

  /** Encoding a concatenation concatenates the encodings. */
  lemma {:induction false} Utf8Append(a: string, b: string)
    ensures Utf8(a + b) == Utf8(a) + Utf8(b)
    decreases |b|
  {
    if |b| == 0 {
      assert a + b == a;
    } else {
      var init := b[..|b| - 1];
      assert (a + b)[..|a + b| - 1] == a + init;
      assert (a + b)[|a + b| - 1] == b[|b| - 1];
      Utf8Append(a, init);
      AppendAssoc(Utf8(a), Utf8(init), EncodeChar(b[|b| - 1]));
    }
  }

  /** An ASCII string is sent as its character codes, one byte each. */
  lemma {:induction false} Utf8Ascii(s: string)
    requires IsAscii(s)
    ensures |Utf8(s)| == |s|
    ensures forall i :: 0 <= i < |s| ==> Utf8(s)[i] == s[i] as int
  {
    if |s| > 0 {
      Utf8Ascii(s[..|s| - 1]);
    }
  }

  function Flatten(chunks: seq<seq<byte>>): seq<byte> {
    if |chunks| == 0 then [] else Flatten(chunks[..|chunks| - 1]) + chunks[|chunks| - 1]
  }

  lemma {:induction false} FlattenAppend(a: seq<seq<byte>>, b: seq<seq<byte>>)
    ensures Flatten(a + b) == Flatten(a) + Flatten(b)
    decreases |b|
  {
    if |b| == 0 {
      assert a + b == a;
    } else {
      var init := b[..|b| - 1];
      assert (a + b)[..|a + b| - 1] == a + init;
      assert (a + b)[|a + b| - 1] == b[|b| - 1];
      FlattenAppend(a, init);
      AppendAssoc(Flatten(a), Flatten(init), b[|b| - 1]);
    }
  }

  /** The concatenation starts with the first chunk. */
  lemma FlattenFront(chunks: seq<seq<byte>>)
    requires |chunks| > 0
    ensures Flatten(chunks) == chunks[0] + Flatten(chunks[1..])
  {
    var one := [chunks[0]];
    assert one[..0] == [];
    assert Flatten(one) == chunks[0];
    FlattenAppend(one, chunks[1..]);
    assert one + chunks[1..] == chunks;
  }

  datatype FontSize = Normal | Large
  datatype Align = Left | Center | Right

  const InitializeBytes: seq<byte> := [0x1B, 0x40]
  const FontLargeBytes: seq<byte> := [0x1D, 0x21, 0x11]
  const FontNormalBytes: seq<byte> := [0x1D, 0x21, 0x00]
  const BoldOnBytes: seq<byte> := [0x1B, 0x45, 0x01]
  const BoldOffBytes: seq<byte> := [0x1B, 0x45, 0x00]
  const CutBytes: seq<byte> := [0x1D, 0x56, 0x42, 0x00]
  const CashDrawerBytes: seq<byte> := [0x1B, 0x70, 0x00, 0x19, 0xFA]

  function AlignCode(a: Align): byte {
    match a
    case Left => 0x00
    case Center => 0x01
    case Right => 0x02
  }

  class EscPosFormatter {
    /** One entry per call, in call order. */
    var chunks: seq<seq<byte>>

    constructor ()
      ensures chunks == []
    {
      chunks := [];
    }

    /** getBuffer: the chunks concatenated. */
    function GetBuffer(): seq<byte>
      reads this
    {
      Flatten(chunks)
    }

    method Write(text: string)
      modifies this
      ensures chunks == old(chunks) + [Utf8(text)]
      ensures GetBuffer() == old(GetBuffer()) + Utf8(text)
    {
      chunks := chunks + [Utf8(text)];
    }

    method WriteCommand(command: seq<byte>)
      modifies this
      ensures chunks == old(chunks) + [command]
      ensures GetBuffer() == old(GetBuffer()) + command
    {
      chunks := chunks + [command];
    }

    method Initialize()
      modifies this
      ensures chunks == old(chunks) + [[0x1B, 0x40]]
      ensures GetBuffer() == old(GetBuffer()) + InitializeBytes
    {
      WriteCommand(InitializeBytes);
    }

    method SetFontSize(size: FontSize)
      modifies this
      ensures size == Large ==> chunks == old(chunks) + [[0x1D, 0x21, 0x11]]
      ensures size == Normal ==> chunks == old(chunks) + [[0x1D, 0x21, 0x00]]
    {
      if size == Large {
        WriteCommand(FontLargeBytes);
      } else {
        WriteCommand(FontNormalBytes);
      }
    }

    method SetBold(enabled: bool)
      modifies this
      ensures enabled ==> chunks == old(chunks) + [[0x1B, 0x45, 0x01]]
      ensures !enabled ==> chunks == old(chunks) + [[0x1B, 0x45, 0x00]]
    {
      if enabled {
        WriteCommand(BoldOnBytes);
      } else {
        WriteCommand(BoldOffBytes);
      }
    }

    method SetAlign(align: Align)
      modifies this
      ensures align == Left ==> chunks == old(chunks) + [[0x1B, 0x61, 0x00]]
      ensures align == Center ==> chunks == old(chunks) + [[0x1B, 0x61, 0x01]]
      ensures align == Right ==> chunks == old(chunks) + [[0x1B, 0x61, 0x02]]
    {
      WriteCommand([0x1B, 0x61, AlignCode(align)]);
    }

    method WriteLine(text: string)
      modifies this
      ensures chunks == old(chunks) + [Utf8(text + "\n")]
      ensures GetBuffer() == old(GetBuffer()) + Utf8(text) + [0x0A]
    {
      Utf8Append(text, "\n");
      Write(text + "\n");
    }

    method WriteEmptyLine()
      modifies this
      ensures chunks == old(chunks) + [[0x0A]]
    {
      assert "\n"[..0] == "";
      assert Utf8("\n") == [0x0A];
      Write("\n");
    }

    /** writeSeparator(char, width); the formatters use '-' and 32. */
    method WriteSeparator(ch: string, width: nat)
      modifies this
      ensures chunks == old(chunks) + [Utf8(Repeat(ch, width) + "\n")]
    {
      Write(Repeat(ch, width) + "\n");
    }

    method CutPaper()
      modifies this
      ensures chunks == old(chunks) + [[0x1D, 0x56, 0x42, 0x00]]
      ensures GetBuffer() == old(GetBuffer()) + CutBytes
    {
      WriteCommand(CutBytes);
    }

    method OpenCashDrawer()
      modifies this
      ensures chunks == old(chunks) + [[0x1B, 0x70, 0x00, 0x19, 0xFA]]
      ensures GetBuffer() == old(GetBuffer()) + CashDrawerBytes
    {
      WriteCommand(CashDrawerBytes);
    }

    method Clear()
      modifies this
      ensures chunks == [] && GetBuffer() == []
    {
      chunks := [];
    }
  }

  lemma {:induction false} RepeatChar(c: char, n: nat)
    ensures Repeat([c], n) == seq(n, _ => c)
  {
    if n > 0 {
      RepeatChar(c, n - 1);
    }
  }

  /** The 32-dash separator line the tickets use is 33 bytes of ASCII. */
  lemma SeparatorBytes()
    ensures Utf8(Repeat("-", 32) + "\n") == seq(32, _ => 0x2D) + [0x0A]
  {
    RepeatChar('-', 32);
    var s := Repeat("-", 32) + "\n";
    assert IsAscii(s);
    Utf8Ascii(s);
  }
}
