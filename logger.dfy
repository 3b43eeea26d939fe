/** `bin/logger.js`: every log call goes through `write`, which splits the message on `\n`,
    strips line ends, drops empty lines and prints each remaining line after a prefix,
    coloured when a colour is given. Console output is returned as the sequence of printed
    lines; colours are tags, not escape codes. */
module Logger {
  import opened Wrappers
  import opened Text

  datatype Color = Cyan | Yellow | Red

  /** A piece of text, optionally wrapped in a colour. */
  datatype Span = Span(text: string, color: Option<Color>)

  /** One `console.log(prefix, body)` call. */
  datatype Line = Line(prefix: Span, body: Span)

  /** The prefix used when none is given: `clc.cyan('[conquer]')`. */
  const DefaultPrefix := Span("[conquer]", Some(Cyan))

  /** `!prefix`: absent, or the empty uncoloured string. */
  predicate IsFalsy(prefix: Option<Span>)
  {
    prefix.None? || (prefix.value.color.None? && prefix.value.text == "")
  }

  function EffectivePrefix(prefix: Option<Span>): (p: Span)
    ensures IsFalsy(prefix) ==> p == DefaultPrefix
    ensures !IsFalsy(prefix) ==> p == prefix.value
  {
    if IsFalsy(prefix) then DefaultPrefix else prefix.value
  }

  /** Whether `piece.replace(/(\s?$)|(\n?$)/gm, '')` deletes position `i`: a `\s` character
      that ends the piece or stands just before a line terminator. */
  predicate Erased(s: string, i: nat)
    requires i < |s|
  {
    IsSpace(s[i]) && (i + 1 == |s| || IsLineTerminator(s[i + 1]))
  }

  /** `piece.replace(/(\s?$)|(\n?$)/gm, '')`. */
  function StripLineEnds(s: string): (r: string)
    ensures |r| <= |s|
  {
    if s == [] then "" else (if Erased(s, 0) then "" else [s[0]]) + StripLineEnds(s[1..])
  }

  /** On a piece without line terminators the replacement removes at most the one trailing
      `\s` character. */
  lemma {:induction false} StripLineEndsPlain(s: string)
    requires forall i :: 0 <= i < |s| ==> !IsLineTerminator(s[i])
    ensures StripLineEnds(s) == DropTrailingSpace(s)
  {
    if s != [] {
      StripLineEndsPlain(s[1..]);
      if |s| > 1 {
        assert !Erased(s, 0);
        assert s[1..][..|s| - 2] == s[1..|s| - 1];
        assert [s[0]] + s[1..|s| - 1] == s[..|s| - 1];
        assert [s[0]] + s[1..] == s;
      }
    }
  }

  /** With line terminators inside a piece, more than one character can go: in `"a \r"` both
      the space and the carriage return are removed. */
  lemma StripLineEndsCarriageReturn()
    ensures StripLineEnds("a \r") == "a"
  {
    var s := "a \r";
    assert !IsSpace('a') && IsSpace(' ') && IsLineTerminator('\r');
    assert Erased(s, 1) && Erased(s, 2) && !Erased(s, 0);
    assert s[1..][1..] == "\r";
    assert StripLineEnds(s[1..][1..]) == "";
    assert StripLineEnds(s[1..]) == "";
  }

  /** The lines printed for one piece of the message. */
  function EmitPiece(piece: string, color: Option<Color>, prefix: Span): seq<Line>
  {
    var message := StripLineEnds(piece);
    if |message| > 0 then [Line(prefix, Span(message, color))] else []
  }

  /** The lines printed for the pieces, in order. */
  function EmitPieces(pieces: seq<string>, color: Option<Color>, prefix: Span): (r: seq<Line>)
    ensures |r| <= |pieces|
    ensures forall k :: 0 <= k < |r| ==>
              r[k].prefix == prefix && r[k].body.color == color && |r[k].body.text| > 0
  {
    if pieces == [] then []
    else EmitPieces(pieces[..|pieces| - 1], color, prefix) + EmitPiece(pieces[|pieces| - 1], color, prefix)
  }

  /** Everything `write(msg, color, prefix)` prints: never an empty line, at most one line per
      `\n`-separated piece, all with the same prefix and the given colour. */
  function WriteLines(msg: string, color: Option<Color>, prefix: Option<Span>): (r: seq<Line>)
    ensures |r| <= Count(msg, '\n') + 1
    ensures forall k :: 0 <= k < |r| ==>
              r[k].prefix == EffectivePrefix(prefix) && r[k].body.color == color && |r[k].body.text| > 0
  {
    EmitPieces(Split(msg, '\n'), color, EffectivePrefix(prefix))
  }

  lemma {:induction false} EmitPiecesAppend(p: seq<string>, q: seq<string>, color: Option<Color>, prefix: Span)
    ensures EmitPieces(p + q, color, prefix) == EmitPieces(p, color, prefix) + EmitPieces(q, color, prefix)
  {
    if q != [] {
      var q', x := q[..|q| - 1], q[|q| - 1];
      var pq' := p + q';
      assert q == q' + [x];
      assert p + q == pq' + [x];
      EmitPiecesAppend(p, q', color, prefix);
      EmitPiecesSnoc(pq', x, color, prefix);
      EmitPiecesSnoc(q', x, color, prefix);
    } else {
      assert p + q == p;
    }
  }

  lemma EmitPiecesSnoc(pieces: seq<string>, x: string, color: Option<Color>, prefix: Span)
    ensures EmitPieces(pieces + [x], color, prefix) == EmitPieces(pieces, color, prefix) + EmitPiece(x, color, prefix)
  {
    assert (pieces + [x])[..|pieces|] == pieces;
  }

  /** `write` treats the parts of a message on either side of a `\n` independently and in
      order. */
  lemma WriteLinesNewline(a: string, b: string, color: Option<Color>, prefix: Option<Span>)
    ensures WriteLines(a + "\n" + b, color, prefix) == WriteLines(a, color, prefix) + WriteLines(b, color, prefix)
  {
    SplitAppend(a, b, '\n');
    EmitPiecesAppend(Split(a, '\n'), Split(b, '\n'), color, EffectivePrefix(prefix));
  }

  /** A message without `\n` prints one line, its stripped text, or nothing when that text is
      empty. */
  lemma WriteLinesSingle(msg: string, color: Option<Color>, prefix: Option<Span>)
    requires '\n' !in msg
    ensures WriteLines(msg, color, prefix) ==
            if StripLineEnds(msg) == "" then []
            else [Line(EffectivePrefix(prefix), Span(StripLineEnds(msg), color))]
  {
    SplitNoSeparator(msg, '\n');
    assert [msg][..0] == [];
  }

  /** A trailing `\n` prints nothing more. */
  lemma WriteLinesTrailingNewline(msg: string, color: Option<Color>, prefix: Option<Span>)
    ensures WriteLines(msg + "\n", color, prefix) == WriteLines(msg, color, prefix)
  {
    WriteLinesNewline(msg, "", color, prefix);
    assert msg + "\n" + "" == msg + "\n";
    WriteLinesSingle("", color, prefix);
  }

  /** `write(msg, color, prefix)`: one `console.log` per non-empty stripped piece. */
  method Write(msg: string, color: Option<Color>, prefix: Option<Span>) returns (out: seq<Line>)
    ensures out == WriteLines(msg, color, prefix)
  {
    var p := if IsFalsy(prefix) then DefaultPrefix else prefix.value;
    var messages := Split(msg, '\n');
    out := [];
    for i := 0 to |messages|
      invariant out == EmitPieces(messages[..i], color, p)
    {
      var message := StripLineEnds(messages[i]);
      if |message| > 0 {
        out := out + [Line(p, Span(message, color))];
      }
      assert messages[..i + 1][..i] == messages[..i];
    }
    assert messages[..|messages|] == messages;
  }

  /** `log(...)`: no colour, default prefix. */
  method Log(msg: string) returns (out: seq<Line>)
    ensures out == WriteLines(msg, None, None)
    ensures forall k :: 0 <= k < |out| ==> out[k].prefix == DefaultPrefix && out[k].body.color == None
  {
    out := Write(msg, None, None);
  }

  /** `warn(...)`: yellow, default prefix. */
  method Warn(msg: string) returns (out: seq<Line>)
    ensures out == WriteLines(msg, Some(Yellow), None)
    ensures forall k :: 0 <= k < |out| ==> out[k].prefix == DefaultPrefix && out[k].body.color == Some(Yellow)
  {
    out := Write(msg, Some(Yellow), None);
  }

  /** `error(...)`: red, default prefix. */
  method Error(msg: string) returns (out: seq<Line>)
    ensures out == WriteLines(msg, Some(Red), None)
    ensures forall k :: 0 <= k < |out| ==> out[k].prefix == DefaultPrefix && out[k].body.color == Some(Red)
  {
    out := Write(msg, Some(Red), None);
  }

  /** What `appLog(app, msg, isError)` prints. */
  function AppLogLines(app: string, msg: string, isError: bool): (r: seq<Line>)
    ensures forall k :: 0 <= k < |r| ==>
              r[k].prefix == Span("[" + app + "]", Some(Yellow)) &&
              (r[k].body.color == Some(Red) <==> isError) &&
              (r[k].body.color == None <==> !isError)
  {
    WriteLines(msg, if isError then Some(Red) else None, Some(Span("[" + app + "]", Some(Yellow))))
  }

  /** `appLog(app, msg, isError)`: prefix `[app]` in yellow, red text iff `isError`. */
  method AppLog(app: string, msg: string, isError: bool) returns (out: seq<Line>)
    ensures out == AppLogLines(app, msg, isError)
  {
    out := Write(msg, if isError then Some(Red) else None, Some(Span("[" + app + "]", Some(Yellow))));
  }
}
