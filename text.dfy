/**
 * The JavaScript string operations the services rely on, over `string`
 * (a sequence of UTF-16 code units): `toLowerCase` (ASCII letters only),
 * `trim`, `startsWith`, `includes`, `split(':')[1]`, `split('@')[0]` and
 * `split(/\r?\n/)`.
 */
module Text {

  import opened Wrappers

  /** `toLowerCase` on one character; only the ASCII letters A-Z are folded. */
  function LowerChar(c: char): char
  {
    if 'A' <= c <= 'Z' then (c as int + 32) as char else c
  }

  /** `s.toLowerCase()`, character by character. */
  function Lower(s: string): (r: string)
    ensures |r| == |s|
    ensures forall i :: 0 <= i < |s| ==> r[i] == LowerChar(s[i])
  {
    seq(|s|, i requires 0 <= i < |s| => LowerChar(s[i]))
  }

  /** The characters `String.prototype.trim` removes: white space and line terminators. */
  predicate IsSpace(c: char)
  {
    var n := c as int;
    n == 0x20 || (0x09 <= n <= 0x0D) || n == 0xA0 || n == 0x1680 || (0x2000 <= n <= 0x200A)
    || n == 0x2028 || n == 0x2029 || n == 0x202F || n == 0x205F || n == 0x3000 || n == 0xFEFF
  }

  function TrimStart(s: string): (r: string)
    ensures |r| <= |s| && r == s[|s| - |r|..]
    ensures r == [] || !IsSpace(r[0])
    ensures forall i :: 0 <= i < |s| - |r| ==> IsSpace(s[i])
  {
    if |s| > 0 && IsSpace(s[0]) then
      var r := TrimStart(s[1..]);
      assert forall i :: 1 <= i < |s| ==> s[i] == s[1..][i - 1];
      assert s[1..][|s| - 1 - |r|..] == s[|s| - |r|..];
      r
    else s
  }

  function TrimEnd(s: string): (r: string)
    ensures |r| <= |s| && r == s[..|r|]
    ensures r == [] || !IsSpace(r[|r| - 1])
    ensures forall i :: |r| <= i < |s| ==> IsSpace(s[i])
  {
    if |s| > 0 && IsSpace(s[|s| - 1]) then
      var r := TrimEnd(s[..|s| - 1]);
      assert forall i :: 0 <= i < |s| - 1 ==> s[i] == s[..|s| - 1][i];
      assert s[..|s| - 1][..|r|] == s[..|r|];
      r
    else s
  }

  /** `t` occurs in `s` starting at position `i`. */
  predicate OccursAt(s: string, t: string, i: nat)
  {
    i + |t| <= |s| && s[i..i + |t|] == t
  }

  /** `s` is `r` at position `i` with nothing but white space before and after it. */
  predicate PaddedAt(s: string, r: string, i: nat)
  {
    OccursAt(s, r, i)
    && (forall k :: 0 <= k < i ==> IsSpace(s[k]))
    && (forall k :: i + |r| <= k < |s| ==> IsSpace(s[k]))
  }

  /**
   * `s.trim()`: `s` with all leading and trailing white space removed, so
   * that what is left neither starts nor ends with white space.
   */
  function Trim(s: string): (r: string)
    ensures r == [] || (!IsSpace(r[0]) && !IsSpace(r[|r| - 1]))
    ensures exists i: nat :: PaddedAt(s, r, i)
  {
    var t := TrimEnd(s);
    var r := TrimStart(t);
    PaddedInside(s, t, r);
    r
  }

  /** Padding on the right of `s` around `t`, then on the left of `t` around `r`, pads `r` inside `s`. */
  lemma PaddedInside(s: string, t: string, r: string)
    requires |t| <= |s| && t == s[..|t|] && forall k :: |t| <= k < |s| ==> IsSpace(s[k])
    requires |r| <= |t| && r == t[|t| - |r|..] && forall k :: 0 <= k < |t| - |r| ==> IsSpace(t[k])
    ensures PaddedAt(s, r, |t| - |r|)
  {
    assert forall k :: 0 <= k < |t| ==> s[k] == t[k];
    assert s[|t| - |r|..|t|] == r;
  }

  /** `s.startsWith(p)`. */
  predicate StartsWith(s: string, p: string)
  {
    |p| <= |s| && s[..|p|] == p
  }

  /** `s.includes(t)`: `t` occurs at some position of `s`. */
  predicate Contains(s: string, t: string)
    decreases |s|
  {
    StartsWith(s, t) || (|s| > 0 && Contains(s[1..], t))
  }

  lemma {:induction false} ContainsAt(s: string, t: string)
    ensures Contains(s, t) <==> exists i: nat :: OccursAt(s, t, i)
    decreases |s|
  {
    if StartsWith(s, t) {
      assert OccursAt(s, t, 0);
    } else if |s| > 0 {
      ContainsAt(s[1..], t);
      if Contains(s[1..], t) {
        var i: nat :| OccursAt(s[1..], t, i);
        assert OccursAt(s, t, i + 1);
      }
      if exists i: nat :: OccursAt(s, t, i) {
        var i: nat :| OccursAt(s, t, i);
        assert i > 0;
        assert OccursAt(s[1..], t, i - 1);
      }
    } else {
      assert forall i: nat :: !OccursAt(s, t, i);
    }
  }

  /** The position of the first `c` in `s`, or `|s|` when there is none. */
  function IndexOf(s: string, c: char): (i: nat)
    ensures i <= |s|
    ensures i < |s| ==> s[i] == c
    ensures forall k :: 0 <= k < i ==> s[k] != c
  {
    if |s| == 0 then 0
    else if s[0] == c then 0
    else 1 + IndexOf(s[1..], c)
  }

  /** The position of the first character of `s` that is in `cs`, or `|s|`. */
  function IndexOfAny(s: string, cs: set<char>): (i: nat)
    ensures i <= |s|
    ensures i < |s| ==> s[i] in cs
    ensures forall k :: 0 <= k < i ==> s[k] !in cs
  {
    if |s| == 0 then 0
    else if s[0] in cs then 0
    else 1 + IndexOfAny(s[1..], cs)
  }

  /**
   * `s.split(sep)[1]`: the text between the first and the second `sep`
   * (or the end of `s`), undefined when `s` holds no `sep` at all.
   */
  function SecondField(s: string, sep: char): (r: Option<string>)
    ensures r.None? <==> sep !in s
    ensures r.Some? ==> sep !in r.value
    ensures r.Some? ==> exists i :: 0 <= i < |s| && s[i] == sep && sep !in s[..i] && StartsWith(s[i + 1..], r.value)
                                    && (i + 1 + |r.value| == |s| || s[i + 1 + |r.value|] == sep)
  {
    var i := IndexOf(s, sep);
    if i == |s| then None
    else
      var rest := s[i + 1..];
      var r := rest[..IndexOf(rest, sep)];
      assert s[..i] == s[..i] && sep !in s[..i];
      Some(r)
  }

  /** `s.split(sep)[0]`: the text before the first `sep`, or all of `s`. */
  function FirstField(s: string, sep: char): (r: string)
    ensures sep !in r
    ensures StartsWith(s, r)
    ensures |r| < |s| ==> s[|r|] == sep
  {
    s[..IndexOf(s, sep)]
  }

  /** A line of text ends at `"\n"`; a `"\r"` just before it belongs to the separator. */
  function DropCarriageReturn(line: string): (r: string)
    ensures r == line || (line == r + "\r")
  {
    if |line| > 0 && line[|line| - 1] == '\r' then line[..|line| - 1] else line
  }

  /** The pieces joined back together, with a `"\n"` between neighbours. */
  function JoinLines(pieces: seq<string>): string
  {
    if |pieces| == 0 then []
    else if |pieces| == 1 then pieces[0]
    else pieces[0] + "\n" + JoinLines(pieces[1..])
  }

  /**
   * `text.split('\n')`: the pieces between the line feeds. Joining them
   * back gives `text`, and no piece holds a line feed, which together
   * determine the pieces.
   */
  function RawLines(text: string): (pieces: seq<string>)
    ensures |pieces| >= 1
    ensures forall k :: 0 <= k < |pieces| ==> '\n' !in pieces[k]
    ensures JoinLines(pieces) == text
    decreases |text|
  {
    var i := IndexOf(text, '\n');
    if i == |text| then [text]
    else
      assert '\n' !in text[..i];
      assert text == text[..i] + "\n" + text[i + 1..];
      [text[..i]] + RawLines(text[i + 1..])
  }

  /**
   * `text.split(/\r?\n/)`: the pieces between the line feeds, where each
   * piece that a line feed follows loses one trailing `"\r"`; the last
   * piece keeps it.
   */
  function SplitLines(text: string): (lines: seq<string>)
    ensures |lines| >= 1
    ensures forall k :: 0 <= k < |lines| ==> '\n' !in lines[k]
    decreases |text|
  {
    var i := IndexOf(text, '\n');
    if i == |text| then [text]
    else
      var first := DropCarriageReturn(text[..i]);
      assert '\n' !in text[..i];
      assert '\n' !in first;
      [first] + SplitLines(text[i + 1..])
  }

  /**
   * The lines are the line-feed pieces of the text, where each piece that
   * a line feed follows loses one trailing `"\r"` and the last keeps it.
   */
  lemma {:induction false} SplitLinesPieces(text: string)
    ensures |SplitLines(text)| == |RawLines(text)|
    ensures forall k :: 0 <= k < |SplitLines(text)| - 1 ==> SplitLines(text)[k] == DropCarriageReturn(RawLines(text)[k])
    ensures SplitLines(text)[|SplitLines(text)| - 1] == RawLines(text)[|SplitLines(text)| - 1]
    decreases |text|
  {
    var i := IndexOf(text, '\n');
    if i < |text| {
      var rest := text[i + 1..];
      SplitLinesPieces(rest);
      assert SplitLines(text) == [DropCarriageReturn(text[..i])] + SplitLines(rest);
      assert RawLines(text) == [text[..i]] + RawLines(rest);
      PiecesCons(SplitLines(rest), RawLines(rest), text[..i], SplitLines(text), RawLines(text));
    } else {
      assert SplitLines(text) == [text] && RawLines(text) == [text];
    }
  }

  /** Putting one more piece in front, with its `"\r"` dropped, keeps the lines matched to the pieces. */
  lemma PiecesCons(lines: seq<string>, pieces: seq<string>, piece: string, lines': seq<string>, pieces': seq<string>)
    requires |lines| == |pieces| >= 1
    requires forall k :: 0 <= k < |lines| - 1 ==> lines[k] == DropCarriageReturn(pieces[k])
    requires lines[|lines| - 1] == pieces[|lines| - 1]
    requires lines' == [DropCarriageReturn(piece)] + lines && pieces' == [piece] + pieces
    ensures |lines'| == |pieces'|
    ensures forall k :: 0 <= k < |lines'| - 1 ==> lines'[k] == DropCarriageReturn(pieces'[k])
    ensures lines'[|lines'| - 1] == pieces'[|lines'| - 1]
  {
    assert lines'[|lines'| - 1] == lines[|lines| - 1];
  }
}
