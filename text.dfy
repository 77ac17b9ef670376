/**
 * Python's whitespace handling on `str`: `split()` with no separator and `strip()`
 * with no argument, plus the texts that word wrapping builds from words.
 */
module Text {

  /** The characters for which `str.isspace()` holds. */
  predicate IsSpace(c: char) {
    var n := c as int;
    n == 0x20 || 0x09 <= n <= 0x0D || 0x1C <= n <= 0x1F || n == 0x85 || n == 0xA0
    || n == 0x1680 || 0x2000 <= n <= 0x200A || n == 0x2028 || n == 0x2029
    || n == 0x202F || n == 0x205F || n == 0x3000
  }

  /** What `split()` can produce: a non-empty run of non-space characters. */
  predicate IsWord(w: string) {
    w != [] && forall i :: 0 <= i < |w| ==> !IsSpace(w[i])
  }

  predicate AllWords(ws: seq<string>) {
    forall i :: 0 <= i < |ws| ==> IsWord(ws[i])
  }

  function DropSpace(s: string): (r: string)
    ensures |r| <= |s|
    ensures r == [] || !IsSpace(r[0])
  {
    if s != [] && IsSpace(s[0]) then DropSpace(s[1..]) else s
  }

  function DropSpaceEnd(s: string): (r: string)
    ensures |r| <= |s|
    ensures r == [] || !IsSpace(r[|r| - 1])
  {
    if s != [] && IsSpace(s[|s| - 1]) then DropSpaceEnd(s[..|s| - 1]) else s
  }

  /** The longest prefix of `s` without a space. */
  function TakeWord(s: string): (w: string)
    ensures |w| <= |s|
    ensures forall i :: 0 <= i < |w| ==> !IsSpace(w[i])
    ensures |w| == |s| || IsSpace(s[|w|])
  {
    if s == [] || IsSpace(s[0]) then [] else [s[0]] + TakeWord(s[1..])
  }

  /** `s.split()`: the maximal runs of non-space characters, in order. */
  function Words(s: string): (ws: seq<string>)
    ensures AllWords(ws)
    decreases |s|
  {
    var t := DropSpace(s);
    if t == [] then []
    else
      var w := TakeWord(t);
      assert |w| > 0;
      var ws := Words(t[|w|..]);
      assert IsWord(w);
      assert forall i :: 0 < i < |ws| + 1 ==> ([w] + ws)[i] == ws[i - 1];
      [w] + ws
  }

  /** `s.strip()`. */
  function Strip(s: string): string {
    DropSpaceEnd(DropSpace(s))
  }

  /** The words joined by single spaces, as `" ".join(ws)`. */
  function JoinSpace(ws: seq<string>): string {
    if ws == [] then ""
    else if |ws| == 1 then ws[0]
    else ws[0] + " " + JoinSpace(ws[1..])
  }

  /** The words each followed by one space: what `line += word + " "` accumulates. */
  function Trailing(ws: seq<string>): string {
    if ws == [] then "" else ws[0] + " " + Trailing(ws[1..])
  }

  function TotalLength(ws: seq<string>): nat {
    if ws == [] then 0 else |ws[0]| + TotalLength(ws[1..])
  }

  lemma {:induction false} TrailingAppend(ws: seq<string>, w: string)
    ensures Trailing(ws + [w]) == Trailing(ws) + (w + " ")
    ensures TotalLength(ws + [w]) == TotalLength(ws) + |w|
  {
    if ws != [] {
      assert (ws + [w])[0] == ws[0] && (ws + [w])[1..] == ws[1..] + [w];
      TrailingAppend(ws[1..], w);
    } else {
      assert ws + [w] == [w];
    }
  }

  lemma {:induction false} TrailingIsJoinPlusSpace(ws: seq<string>)
    requires ws != []
    ensures Trailing(ws) == JoinSpace(ws) + " "
    ensures |Trailing(ws)| == TotalLength(ws) + |ws|
  {
    if |ws| > 1 {
      TrailingIsJoinPlusSpace(ws[1..]);
    }
  }

  lemma {:induction false} JoinSpaceEnds(ws: seq<string>)
    requires ws != [] && AllWords(ws)
    ensures JoinSpace(ws) != []
    ensures !IsSpace(JoinSpace(ws)[0]) && !IsSpace(JoinSpace(ws)[|JoinSpace(ws)| - 1])
  {
    if |ws| > 1 {
      JoinSpaceEnds(ws[1..]);
      var j := JoinSpace(ws[1..]);
      assert JoinSpace(ws) == ws[0] + " " + j;
      assert JoinSpace(ws)[0] == ws[0][0];
      assert JoinSpace(ws)[|JoinSpace(ws)| - 1] == j[|j| - 1];
    }
  }

  /** Stripping the accumulated line gives the words joined by single spaces. */
  lemma StripTrailing(ws: seq<string>)
    requires AllWords(ws)
    ensures Strip(Trailing(ws)) == JoinSpace(ws)
  {
    if ws != [] {
      TrailingIsJoinPlusSpace(ws);
      JoinSpaceEnds(ws);
      var j := JoinSpace(ws);
      assert DropSpace(j + " ") == j + " ";
      var t := j + " ";
      assert IsSpace(t[|t| - 1]) && t[..|t| - 1] == j;
      assert DropSpaceEnd(t) == DropSpaceEnd(j);
    }
  }

  lemma {:induction false} TakeWordOfWord(w: string, rest: string)
    requires IsWord(w) && (rest == [] || IsSpace(rest[0]))
    ensures TakeWord(w + rest) == w
  {
    var s := w + rest;
    assert s[0] == w[0] && s[1..] == w[1..] + rest;
    if |w| == 1 {
      assert w[1..] + rest == rest;
      assert TakeWord(rest) == [];
    } else {
      TakeWordOfWord(w[1..], rest);
    }
    assert w == [w[0]] + w[1..];
  }

  lemma WordsAfterSpace(c: char, s: string)
    requires IsSpace(c)
    ensures Words([c] + s) == Words(s)
  {
    assert ([c] + s)[1..] == s;
    assert DropSpace([c] + s) == DropSpace(s);
  }

  /** A word followed by a space (or nothing) is split off first. */
  lemma WordsOfWordThen(w: string, rest: string)
    requires IsWord(w) && (rest == [] || IsSpace(rest[0]))
    ensures Words(w + rest) == [w] + Words(rest)
  {
    assert DropSpace(w + rest) == w + rest by {
      assert (w + rest)[0] == w[0];
    }
    TakeWordOfWord(w, rest);
    assert (w + rest)[|w|..] == rest;
  }

  /** Splitting words joined by single spaces gives the words back. */
  lemma {:induction false} WordsOfJoin(ws: seq<string>)
    requires AllWords(ws)
    ensures Words(JoinSpace(ws)) == ws
  {
    if |ws| == 1 {
      WordsOfWordThen(ws[0], "");
      assert ws[0] + "" == ws[0];
    } else if |ws| > 1 {
      var j := JoinSpace(ws[1..]);
      assert JoinSpace(ws) == ws[0] + ([' '] + j);
      WordsOfWordThen(ws[0], [' '] + j);
      WordsAfterSpace(' ', j);
      WordsOfJoin(ws[1..]);
    }
  }
}
