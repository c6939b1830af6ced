/** Parsing of a handler's comma-separated list of reaction names. */
module ReactionNames {
  /** The characters with the Unicode property White_Space. */
  predicate IsWhite(c: char) {
    var code := c as int;
    || 0x09 <= code <= 0x0D || code == 0x20 || code == 0x85 || code == 0xA0 || code == 0x1680
    || 0x2000 <= code <= 0x200A || code == 0x2028 || code == 0x2029 || code == 0x202F || code == 0x205F || code == 0x3000
  }

  function TrimStart(s: string): string {
    if s != "" && IsWhite(s[0]) then TrimStart(s[1..]) else s
  }

  function TrimEnd(s: string): string {
    if s != "" && IsWhite(s[|s|-1]) then TrimEnd(s[..|s|-1]) else s
  }

  function Trim(s: string): string {
    TrimEnd(TrimStart(s))
  }

  /** The pieces between separators; there is always one more piece than separators. */
  function Split(s: string, sep: char): (pieces: seq<string>)
    ensures pieces != []
  {
    if s == "" then [""]
    else
      var rest := Split(s[1..], sep);
      if s[0] == sep then [""] + rest else [[s[0]] + rest[0]] + rest[1..]
  }

  function Join(pieces: seq<string>, sep: char): string
    requires pieces != []
  {
    if |pieces| == 1 then pieces[0] else pieces[0] + [sep] + Join(pieces[1..], sep)
  }

  /** `compile_and_cache_patterns` on `reaction_names`: split at commas, trim, drop the empty ones. */
  function ParseReactionNames(text: string): set<string> {
    set piece | piece in Split(text, ',') && Trim(piece) != "" :: Trim(piece)
  }

  lemma {:induction false} SplitOfPrefix(a: string, s: string, sep: char)
    requires sep !in a
    ensures Split(a + s, sep) == [a + Split(s, sep)[0]] + Split(s, sep)[1..]
  {
    if a == "" {
      assert a + s == s;
      assert a + Split(s, sep)[0] == Split(s, sep)[0];
    } else {
      assert (a + s)[1..] == a[1..] + s;
      SplitOfPrefix(a[1..], s, sep);
      assert [a[0]] + (a[1..] + Split(s, sep)[0]) == a + Split(s, sep)[0];
    }
  }

  lemma {:induction false} SplitUndoesJoin(pieces: seq<string>, sep: char)
    requires pieces != [] && forall piece :: piece in pieces ==> sep !in piece
    ensures Split(Join(pieces, sep), sep) == pieces
  {
    if |pieces| == 1 {
      SplitOfPrefix(pieces[0], "", sep);
      assert pieces[0] + "" == pieces[0];
      assert pieces == [pieces[0]];
    } else {
      var rest := Join(pieces[1..], sep);
      SplitUndoesJoin(pieces[1..], sep);
      SplitOfPrefix(pieces[0], [sep] + rest, sep);
      assert ([sep] + rest)[1..] == rest;
      assert Join(pieces, sep) == pieces[0] + ([sep] + rest);
      assert pieces[0] + "" == pieces[0];
    }
  }

  lemma {:induction false} JoinUndoesSplit(s: string, sep: char)
    ensures Join(Split(s, sep), sep) == s
    ensures forall piece :: piece in Split(s, sep) ==> sep !in piece
  {
    if s != "" {
      JoinUndoesSplit(s[1..], sep);
      var rest := Split(s[1..], sep);
      if s[0] == sep {
        assert ([""] + rest)[1..] == rest;
        assert Join([""] + rest, sep) == [sep] + s[1..];
      } else {
        var pieces := [[s[0]] + rest[0]] + rest[1..];
        assert pieces[1..] == rest[1..];
        assert Join(pieces, sep) == [s[0]] + Join(rest, sep);
        assert s == [s[0]] + s[1..];
        assert rest[0] in rest;
      }
    }
  }

  /** A name as an administrator means it: not empty, no comma, no white space at either end. */
  predicate IsPlainName(name: string) {
    name != "" && ',' !in name && !IsWhite(name[0]) && !IsWhite(name[|name|-1])
  }

  predicate AllWhite(s: string) {
    forall c :: c in s ==> IsWhite(c)
  }

  /** Blanks, tabs and line ends are white space; the characters of Slack's reaction names are not. */
  lemma WhiteSpace(c: char)
    ensures c in {' ', '\t', '\n', '\r'} ==> IsWhite(c)
    ensures 'a' <= c <= 'z' || 'A' <= c <= 'Z' || '0' <= c <= '9' || c in {',', '_', '-', '+', ':'} ==> !IsWhite(c)
  {
  }

  lemma {:induction false} TrimStartStrips(pad: string, s: string)
    requires AllWhite(pad) && (s == "" || !IsWhite(s[0]))
    ensures TrimStart(pad + s) == s
  {
    if pad == "" {
      assert pad + s == s;
    } else {
      assert (pad + s)[1..] == pad[1..] + s;
      TrimStartStrips(pad[1..], s);
    }
  }

  lemma {:induction false} TrimEndStrips(s: string, pad: string)
    requires AllWhite(pad) && (s == "" || !IsWhite(s[|s|-1]))
    ensures TrimEnd(s + pad) == s
  {
    if pad == "" {
      assert s + pad == s;
    } else {
      assert (s + pad)[..|s + pad|-1] == s + pad[..|pad|-1];
      TrimEndStrips(s, pad[..|pad|-1]);
    }
  }

  /** Exactly the white space at the ends goes. */
  lemma TrimStrips(left: string, name: string, right: string)
    requires AllWhite(left) && AllWhite(right) && (name == "" || IsPlainName(name))
    ensures Trim(left + name + right) == name
  {
    if name == "" {
      assert left + name + right == (left + right) + "";
      TrimStartStrips(left + right, "");
    } else {
      assert left + name + right == left + (name + right);
      assert (name + right)[0] == name[0];
      TrimStartStrips(left, name + right);
      TrimEndStrips(name, right);
    }
  }

  /** A plain name, or none, with white space around it. */
  ghost predicate Pads(piece: string, name: string) {
    (name == "" || IsPlainName(name)) &&
    exists left, right :: AllWhite(left) && AllWhite(right) && piece == left + name + right
  }

  lemma PaddedName(piece: string, name: string)
    requires Pads(piece, name)
    ensures Trim(piece) == name && ',' !in piece
  {
    var left, right :| AllWhite(left) && AllWhite(right) && piece == left + name + right;
    TrimStrips(left, name, right);
    WhiteSpace(',');
  }

  /** Plain names listed with commas between them, white space around them and gaps are read back as exactly those names. */
  lemma ListedNamesAreReadBack(pieces: seq<string>, names: seq<string>)
    requires pieces != [] && |pieces| == |names| && forall i :: 0 <= i < |names| ==> Pads(pieces[i], names[i])
    ensures ParseReactionNames(Join(pieces, ',')) == set name | name in names && name != ""
  {
    forall i | 0 <= i < |names|
      ensures Trim(pieces[i]) == names[i] && ',' !in pieces[i]
    {
      PaddedName(pieces[i], names[i]);
    }
    SplitUndoesJoin(pieces, ',');
    forall name | name in names && name != ""
      ensures name in ParseReactionNames(Join(pieces, ','))
    {
      var i :| 0 <= i < |names| && names[i] == name;
      assert pieces[i] in pieces;
    }
  }
}
