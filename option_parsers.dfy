/** The two option coercions of `bin/conquer.js`: `extensionsParser` for `-e` and `listParser`
    for `-w`. Each splits its argument on `,` and rewrites every piece in place with a fixed
    regular-expression replacement. */
module OptionParsers {
  import opened Text

  /** `piece.replace(/(^\s?)|(\s?$)/g, '')`: at most one leading and one trailing `\s`
      character are removed. */
  function TrimListPiece(piece: string): string
  {
    DropTrailingSpace(DropLeadingSpace(piece))
  }

  /** `piece.replace(/(^\s?\.?)|(\s?$)/g, '')`: at most one leading `\s` character, then one
      leading `.`, then one trailing `\s` character are removed. */
  function TrimExtensionPiece(piece: string): string
  {
    DropTrailingSpace(DropLeadingDot(DropLeadingSpace(piece)))
  }

  function DropLeadingDot(s: string): string
  {
    if |s| > 0 && s[0] == '.' then s[1..] else s
  }

  /** One entry of `extensionsParser`: `('.' + trimmed).toLowerCase()`. */
  function NormalizeExtension(piece: string): (r: string)
    ensures |r| >= 1 && r[0] == '.'
    ensures NoUpper(r)
  {
    LowerOfLower("." + TrimExtensionPiece(piece));
    Lower("." + TrimExtensionPiece(piece))
  }

  /** What `extensionsParser(str)` returns. */
  function ParseExtensions(str: string): seq<string>
  {
    var pieces := Split(str, ',');
    seq(|pieces|, k requires 0 <= k < |pieces| => NormalizeExtension(pieces[k]))
  }

  /** What `listParser(str)` returns. */
  function ParseList(str: string): seq<string>
  {
    var pieces := Split(str, ',');
    seq(|pieces|, k requires 0 <= k < |pieces| => TrimListPiece(pieces[k]))
  }

  /** `extensionsParser`: split, then overwrite each entry with its normal form. */
  method ExtensionsParser(str: string) returns (list: seq<string>)
    ensures list == ParseExtensions(str)
  {
    list := Split(str, ',');
    ghost var pieces := list;
    var i := 0;
    while i < |list|
      invariant 0 <= i <= |list| == |pieces|
      invariant forall k :: 0 <= k < i ==> list[k] == NormalizeExtension(pieces[k])
      invariant forall k :: i <= k < |list| ==> list[k] == pieces[k]
    {
      var ext := Lower("." + TrimExtensionPiece(list[i]));
      list := list[i := ext];
      i := i + 1;
    }
  }

  /** `listParser`: split, then overwrite each entry with its trimmed form. */
  method ListParser(str: string) returns (list: seq<string>)
    ensures list == ParseList(str)
  {
    list := Split(str, ',');
    ghost var pieces := list;
    var i := 0;
    while i < |list|
      invariant 0 <= i <= |list| == |pieces|
      invariant forall k :: 0 <= k < i ==> list[k] == TrimListPiece(pieces[k])
      invariant forall k :: i <= k < |list| ==> list[k] == pieces[k]
    {
      list := list[i := TrimListPiece(list[i])];
      i := i + 1;
    }
  }

  /** A piece that the trims leave alone: empty, or without `\s` at either end. */
  predicate Bare(t: string)
  {
    t == [] || (!IsSpace(t[0]) && !IsSpace(t[|t| - 1]))
  }

  /** At most one character of padding, or none. */
  predicate Pad(w: string, isPadding: char -> bool)
  {
    w == [] || (|w| == 1 && isPadding(w[0]))
  }

  /** Padding a bare piece with at most one `\s` character on each side and trimming gives it
      back; a second padding character on either side would survive. */
  lemma {:induction false} TrimListPiecePadded(a: string, t: string, b: string)
    requires Bare(t) && Pad(a, IsSpace) && Pad(b, IsSpace)
    ensures TrimListPiece(a + t + b) == t
  {
    var s := a + t + b;
    if t == [] {
      assert s == a + b;
      if |s| == 2 {
        assert s[0] == a[0] && s[1] == b[0];
        assert DropLeadingSpace(s) == [b[0]];
      }
    } else {
      assert DropLeadingSpace(s) == t + b by {
        if a == [] {
          assert s == t + b && s[0] == t[0];
        } else {
          assert s[0] == a[0] && s[1..] == t + b;
        }
      }
      DropTrailingPadding(t, b);
    }
  }

  lemma DropTrailingPadding(t: string, b: string)
    requires t != [] && Bare(t) && Pad(b, IsSpace)
    ensures DropTrailingSpace(t + b) == t
  {
    if b == [] {
      assert t + b == t;
    } else {
      assert (t + b)[..|t + b| - 1] == t;
    }
  }

  lemma {:induction false} TrimExtensionPiecePadded(a: string, d: string, t: string, b: string)
    requires Bare(t) && (t != [] ==> t[0] != '.')
    requires Pad(a, IsSpace) && Pad(d, c => c == '.') && Pad(b, IsSpace)
    ensures TrimExtensionPiece(a + d + t + b) == t
  {
    var s := a + d + t + b;
    if t == [] {
      assert s == a + d + b;
      if a == [] && d == [] {
        assert s == b;
      } else {
        assert DropLeadingSpace(s) == d + b by {
          if a == [] {
            assert s == d + b && s[0] == '.';
          } else {
            assert s[0] == a[0] && s[1..] == d + b;
          }
        }
        assert DropLeadingDot(d + b) == b by {
          if d == [] {
            assert d + b == b;
          } else {
            assert (d + b)[1..] == b;
          }
        }
      }
    } else {
      assert DropLeadingSpace(s) == d + t + b by {
        if a == [] {
          assert s == d + t + b;
          if d == [] { assert s[0] == t[0]; } else { assert s[0] == '.'; }
        } else {
          assert s[0] == a[0] && s[1..] == d + t + b;
        }
      }
      assert DropLeadingDot(d + t + b) == t + b by {
        if d == [] {
          assert d + t + b == t + b && (t + b)[0] == t[0];
        } else {
          assert (d + t + b)[0] == '.' && (d + t + b)[1..] == t + b;
        }
      }
      DropTrailingPadding(t, b);
    }
  }

  /** `extensionsParser` accepts an extension with or without its dot, in any case, padded by
      one `\s` character on each side: all give the same dot-prefixed lower-case entry. */
  lemma NormalizeExtensionPadded(a: string, d: string, t: string, b: string)
    requires Bare(t) && (t != [] ==> t[0] != '.')
    requires Pad(a, IsSpace) && Pad(d, c => c == '.') && Pad(b, IsSpace)
    ensures NormalizeExtension(a + d + t + b) == "." + Lower(t)
  {
    TrimExtensionPiecePadded(a, d, t, b);
    LowerAppend(".", t);
  }

  /** The spellings the option's help text shows normalise alike. */
  lemma NormalizeExtensionExamples()
    ensures NormalizeExtension("js") == ".js"
    ensures NormalizeExtension(".JS") == ".js"
    ensures NormalizeExtension(" .js ") == ".js"
    ensures NormalizeExtension(".js") == ".js"
    ensures NormalizeExtension(" .jade") == ".jade"
  {
    NormalizeBareJs();
    NormalizeUpperJs();
    NormalizePaddedJs();
    NormalizeDottedJs();
    NormalizeDottedJade();
  }

  lemma NormalizeDottedJs()
    ensures NormalizeExtension(".js") == ".js"
  {
    assert !IsSpace('.') && !IsSpace('s');
    assert TrimExtensionPiece(".js") == "js";
    LowerOfLower(".js");
  }

  lemma NormalizeDottedJade()
    ensures NormalizeExtension(" .jade") == ".jade"
  {
    NormalizeDottedExtension("jade", " ");
    assert " " + "." + "jade" == " .jade";
  }

  lemma NormalizeBareJs()
    ensures NormalizeExtension("js") == ".js"
  {
    assert !IsSpace('j') && !IsSpace('s');
    assert TrimExtensionPiece("js") == "js";
    LowerOfLower(".js");
  }

  lemma NormalizeUpperJs()
    ensures NormalizeExtension(".JS") == ".js"
  {
    assert !IsSpace('.') && !IsSpace('S');
    assert TrimExtensionPiece(".JS") == "JS";
    assert Lower(".JS") == ".js";
  }

  lemma NormalizePaddedJs()
    ensures NormalizeExtension(" .js ") == ".js"
  {
    assert IsSpace(' ') && !IsSpace('s');
    assert DropLeadingSpace(" .js ") == ".js ";
    assert DropLeadingDot(".js ") == "js ";
    assert TrimExtensionPiece(" .js ") == "js";
    LowerOfLower(".js");
  }

  /** Normalising an entry again changes it exactly when the entry still ends in `\s`
      (which happens when the piece ended in two such characters). */
  lemma NormalizeExtensionIdempotentIff(piece: string)
    ensures var e := NormalizeExtension(piece);
            NormalizeExtension(e) == e <==> !IsSpace(e[|e| - 1]) || |e| == 1
  {
    var e := NormalizeExtension(piece);
    var l := e[1..];
    assert e == "." + l;
    assert NoUpper(l);
    NormalizeLowerEntry(l);
    if |e| > 1 && IsSpace(e[|e| - 1]) {
      assert |DropTrailingSpace(l)| < |l|;
    } else {
      assert DropTrailingSpace(l) == l;
    }
  }

  /** Normalising an entry `.l` whose `l` is already lower-case only drops a trailing `\s`
      character of `l`. */
  lemma NormalizeLowerEntry(l: string)
    requires NoUpper(l)
    ensures NormalizeExtension("." + l) == "." + DropTrailingSpace(l)
  {
    var e := "." + l;
    assert e[0] == '.' && e[1..] == l;
    assert TrimExtensionPiece(e) == DropTrailingSpace(l);
    LowerAppend(".", DropTrailingSpace(l));
    LowerOfLower(DropTrailingSpace(l));
    assert Lower(".") == ".";
  }

  /** The entry a piece ending in two spaces gives is not a fixed point. */
  lemma NormalizeExtensionNotIdempotent()
    ensures NormalizeExtension("js  ") == ".js "
    ensures NormalizeExtension(".js ") == ".js"
  {
    assert !IsSpace('j') && !IsSpace('s') && IsSpace(' ');
    assert TrimExtensionPiece("js  ") == "js ";
    assert TrimExtensionPiece(".js ") == "js";
    LowerOfLower(".js ");
    LowerOfLower(".js");
  }

  /** `extensionsParser` yields one entry per `,`-separated piece, in order, each the piece's
      normal form, and every entry starts with `.` and has no upper-case letter. */
  lemma ParseExtensionsShape(str: string)
    ensures var r := ParseExtensions(str);
            |r| == Count(str, ',') + 1 &&
            forall k :: 0 <= k < |r| ==> r[k] == NormalizeExtension(Split(str, ',')[k]) &&
                                         r[k][0] == '.' && NoUpper(r[k])
  {
  }

  /** Round trip: the `,`-joined list of bare, lower-case, dot-less extensions parses back to
      those extensions, each with a `.` in front. */
  lemma ParseExtensionsJoin(exts: seq<string>)
    requires |exts| >= 1
    requires forall k :: 0 <= k < |exts| ==>
               ',' !in exts[k] && Bare(exts[k]) && NoUpper(exts[k]) && (exts[k] != [] ==> exts[k][0] != '.')
    ensures var r := ParseExtensions(Join(exts, ','));
            |r| == |exts| && forall k :: 0 <= k < |r| ==> r[k] == "." + exts[k]
  {
    SplitJoin(exts, ',');
    forall k | 0 <= k < |exts|
      ensures NormalizeExtension(exts[k]) == "." + exts[k]
    {
      NormalizeExtensionPadded("", "", exts[k], "");
      assert "" + "" + exts[k] + "" == exts[k];
      LowerOfLower(exts[k]);
    }
  }

  /** Round trip: a `,`-joined list of bare pieces parses back to the same pieces, with no
      change of case. */
  lemma ParseListJoin(pieces: seq<string>)
    requires |pieces| >= 1
    requires forall k :: 0 <= k < |pieces| ==> ',' !in pieces[k] && Bare(pieces[k])
    ensures ParseList(Join(pieces, ',')) == pieces
  {
    SplitJoin(pieces, ',');
    forall k | 0 <= k < |pieces|
      ensures TrimListPiece(pieces[k]) == pieces[k]
    {
      TrimListPiecePadded("", pieces[k], "");
      assert "" + pieces[k] + "" == pieces[k];
    }
  }

  lemma {:induction false} ParseTwoPieces(x: string, y: string)
    requires ',' !in x && ',' !in y
    ensures ParseExtensions(x + [','] + y) == [NormalizeExtension(x), NormalizeExtension(y)]
    ensures ParseList(x + [','] + y) == [TrimListPiece(x), TrimListPiece(y)]
  {
    SplitAppend(x, y, ',');
    SplitNoSeparator(x, ',');
    SplitNoSeparator(y, ',');
  }

  /** The example of the help text `-e ".js, .jade"`. */
  lemma HelpTextExtensions()
    ensures ParseExtensions(".js, .jade") == [".js", ".jade"]
  {
    assert ".js, .jade" == ".js" + [','] + " .jade";
    ParseTwoPieces(".js", " .jade");
    NormalizeExtensionExamples();
  }

  /** A bare lower-case extension written with its dot, after at most one `\s` character,
      is its own entry. */
  lemma NormalizeDottedExtension(t: string, a: string)
    requires t != [] && Bare(t) && NoUpper(t) && t[0] != '.' && Pad(a, IsSpace)
    ensures NormalizeExtension(a + "." + t) == "." + t
  {
    NormalizeExtensionPadded(a, ".", t, "");
    assert a + "." + t + "" == a + "." + t;
    LowerOfLower(t);
  }

  /** The example of the help text `-w "./, bin/"`. */
  lemma HelpTextWatchList()
    ensures ParseList("./, bin/") == ["./", "bin/"]
  {
    assert "./, bin/" == "./" + [','] + " bin/";
    ParseTwoPieces("./", " bin/");
    assert IsSpace(' ') && !IsSpace('.') && !IsSpace('/');
    assert TrimListPiece("./") == "./";
    assert TrimListPiece(" bin/") == "bin/";
  }
}
