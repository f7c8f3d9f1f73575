/** The string built-ins the core relies on: the white-space class shared by
    `String.prototype.trim` and the regular expression `\s`,
    `line.trim().split(/\s+/)` and `text.split(/\n/)`. */
module JsText {

  /** White space and line terminators in the sense of ECMAScript
      (the characters `\s` matches and `trim` removes). */
  predicate IsWhiteSpace(c: char) {
    || c == '\t' || c == '\n' || c == '\U{000B}' || c == '\U{000C}' || c == '\r'
    || c == ' ' || c == '\U{00A0}' || c == '\U{1680}'
    || ('\U{2000}' <= c <= '\U{200A}')
    || c == '\U{2028}' || c == '\U{2029}' || c == '\U{202F}' || c == '\U{205F}'
    || c == '\U{3000}' || c == '\U{FEFF}'
  }

  /** Index of the first occurrence of `c` in `s`, or `|s|` when there is none. */
  function IndexOf(s: string, c: char): (i: nat)
    ensures i <= |s|
    ensures i < |s| ==> s[i] == c
    ensures forall j :: 0 <= j < i ==> s[j] != c
  {
    if s == [] then 0
    else if s[0] == c then 0
    else 1 + IndexOf(s[1..], c)
  }

  /** `s.trimStart()`: drops leading white space. */
  function TrimStart(s: string): string
    decreases |s|
  {
    if s != [] && IsWhiteSpace(s[0]) then TrimStart(s[1..]) else s
  }

  /** `s.trimEnd()`: drops trailing white space. */
  function TrimEnd(s: string): string
    decreases |s|
  {
    if s != [] && IsWhiteSpace(s[|s| - 1]) then TrimEnd(s[..|s| - 1]) else s
  }

  /** Trimming the start leaves a suffix that does not start with white
      space, and only white space was dropped. */
  lemma {:induction false} TrimStartSuffix(s: string)
    ensures var t := TrimStart(s);
            && |t| <= |s| && t == s[|s| - |t|..]
            && (t == [] || !IsWhiteSpace(t[0]))
            && forall i :: 0 <= i < |s| - |t| ==> IsWhiteSpace(s[i])
    decreases |s|
  {
    if s != [] && IsWhiteSpace(s[0]) {
      TrimStartSuffix(s[1..]);
    }
  }

  /** Trimming the end leaves a prefix that does not end with white space,
      and only white space was dropped. */
  lemma {:induction false} TrimEndPrefix(s: string)
    ensures var t := TrimEnd(s);
            && |t| <= |s| && t == s[..|t|]
            && (t == [] || !IsWhiteSpace(t[|t| - 1]))
            && forall i :: |t| <= i < |s| ==> IsWhiteSpace(s[i])
    decreases |s|
  {
    if s != [] && IsWhiteSpace(s[|s| - 1]) {
      TrimEndPrefix(s[..|s| - 1]);
    }
  }

  /** `s.trim()` */
  function Trim(s: string): string {
    TrimEnd(TrimStart(s))
  }

  /** Length of the maximal run of non-white-space characters that starts `s`. */
  function WordLength(s: string): (n: nat)
    requires s != [] && !IsWhiteSpace(s[0])
    ensures 1 <= n <= |s|
    ensures forall i :: 0 <= i < n ==> !IsWhiteSpace(s[i])
    ensures n < |s| ==> IsWhiteSpace(s[n])
  {
    if |s| == 1 || IsWhiteSpace(s[1]) then 1 else 1 + WordLength(s[1..])
  }

  /** The maximal runs of non-white-space characters of `s`, in order. */
  function Words(s: string): seq<string>
    decreases |s|
  {
    if s == [] then []
    else if IsWhiteSpace(s[0]) then Words(s[1..])
    else
      var n := WordLength(s);
      [s[..n]] + Words(s[n..])
  }

  /** Every word is non-empty and free of white space. */
  lemma {:induction false} WordsAreWords(s: string)
    ensures forall w <- Words(s) :: w != [] && forall c <- w :: !IsWhiteSpace(c)
    decreases |s|
  {
    if s == [] {
    } else if IsWhiteSpace(s[0]) {
      WordsAreWords(s[1..]);
    } else {
      var n := WordLength(s);
      WordsAreWords(s[n..]);
      assert forall c <- s[..n] :: !IsWhiteSpace(c);
    }
  }

  /** `line.trim().split(/\s+/)`: the words of the line, except that a line
      holding only white space gives the single empty token `""` (splitting
      the empty string yields `[""]`). */
  function SplitOnWhiteSpace(line: string): (items: seq<string>)
    ensures |items| >= 1
  {
    var ws := Words(line);
    if ws == [] then [""] else ws
  }

  predicate AllWhiteSpace(s: string) {
    forall c <- s :: IsWhiteSpace(c)
  }

  /** The runs of white space around and between the words of `s`: one more
      than there are words. */
  function Gaps(s: string): seq<string>
    decreases |s|
  {
    if s == [] then [""]
    else if IsWhiteSpace(s[0]) then
      var g := Gaps(s[1..]);
      [[s[0]] + g[0]] + g[1..]
    else
      [""] + Gaps(s[WordLength(s)..])
  }

  /** `gaps[0] + words[0] + gaps[1] + ... + words[n-1] + gaps[n]` */
  function Interleave(gaps: seq<string>, words: seq<string>): string
    requires |gaps| == |words| + 1
  {
    if words == [] then gaps[0]
    else gaps[0] + words[0] + Interleave(gaps[1..], words[1..])
  }

  /** There is one more gap than there are words, and a line that starts
      with white space starts with a non-empty gap. */
  lemma {:induction false} GapsCount(s: string)
    ensures |Gaps(s)| == |Words(s)| + 1
    ensures s != [] && IsWhiteSpace(s[0]) ==> Gaps(s)[0] != ""
    decreases |s|
  {
    if s != [] {
      if IsWhiteSpace(s[0]) {
        GapsCount(s[1..]);
      } else {
        GapsCount(s[WordLength(s)..]);
      }
    }
  }

  /** The gaps hold only white space. */
  lemma {:induction false} GapsWhite(s: string)
    ensures forall g <- Gaps(s) :: AllWhiteSpace(g)
    decreases |s|
  {
    if s != [] {
      if IsWhiteSpace(s[0]) {
        var g := Gaps(s[1..]);
        GapsWhite(s[1..]);
        GapsCount(s[1..]);
        assert g[0] in g;
        forall x <- Gaps(s) ensures AllWhiteSpace(x) {
          if x != [s[0]] + g[0] {
            assert x in g[1..];
          }
        }
      } else {
        GapsWhite(s[WordLength(s)..]);
      }
    }
  }

  /** The gaps between two words are never empty. */
  lemma {:induction false} GapsInner(s: string)
    ensures |Gaps(s)| == |Words(s)| + 1
    ensures forall i :: 0 < i < |Words(s)| ==> Gaps(s)[i] != ""
    decreases |s|
  {
    GapsCount(s);
    if s != [] {
      if IsWhiteSpace(s[0]) {
        GapsInner(s[1..]);
      } else {
        var n := WordLength(s);
        var ws := Words(s[n..]);
        GapsInner(s[n..]);
        GapsCount(s[n..]);
        assert Gaps(s) == [""] + Gaps(s[n..]);
        if ws != [] {
          assert s[n..] != [];
          assert Gaps(s[n..])[0] != "";
        }
      }
    }
  }

  /** Putting gaps and words back together gives the line. */
  lemma {:induction false} GapsRebuild(s: string)
    ensures |Gaps(s)| == |Words(s)| + 1
    ensures Interleave(Gaps(s), Words(s)) == s
    decreases |s|
  {
    GapsCount(s);
    if s != [] {
      if IsWhiteSpace(s[0]) {
        var g, ws := Gaps(s[1..]), Words(s[1..]);
        GapsRebuild(s[1..]);
        assert Gaps(s) == [[s[0]] + g[0]] + g[1..] && Words(s) == ws;
        InterleaveGap(s[0], g, ws);
        assert s == [s[0]] + s[1..];
      } else {
        var n := WordLength(s);
        var g, ws := Gaps(s[n..]), Words(s[n..]);
        GapsRebuild(s[n..]);
        assert Gaps(s) == [""] + g && Words(s) == [s[..n]] + ws;
        InterleaveWord(s[..n], g, ws);
        assert s == s[..n] + s[n..];
      }
    }
  }

  /** A white-space character in front of the first gap comes out first. */
  lemma InterleaveGap(c: char, g: seq<string>, ws: seq<string>)
    requires |g| == |ws| + 1
    ensures Interleave([[c] + g[0]] + g[1..], ws) == [c] + Interleave(g, ws)
  {
    var gs := [[c] + g[0]] + g[1..];
    if ws != [] {
      assert gs[1..] == g[1..];
    }
  }

  /** A word behind an empty first gap comes out first. */
  lemma InterleaveWord(w: string, g: seq<string>, ws: seq<string>)
    requires |g| == |ws| + 1
    ensures Interleave([""] + g, [w] + ws) == w + Interleave(g, ws)
  {
    var gs, wd := [""] + g, [w] + ws;
    assert gs[0] == "" && wd[0] == w;
    assert gs[1..] == g && wd[1..] == ws;
    assert Interleave(gs, wd) == gs[0] + wd[0] + Interleave(g, ws);
    assert "" + w == w;
  }

  /** A line is exactly its words with runs of white space between them:
      the gaps hold only white space, the inner ones are non-empty, and
      putting gaps and words back together gives the line. With
      `WordsAreWords` this determines the words uniquely. */
  lemma WordsSplit(s: string)
    ensures |Gaps(s)| == |Words(s)| + 1
    ensures forall g <- Gaps(s) :: AllWhiteSpace(g)
    ensures forall i :: 0 < i < |Words(s)| ==> Gaps(s)[i] != ""
    ensures Interleave(Gaps(s), Words(s)) == s
  {
    GapsWhite(s);
    GapsInner(s);
    GapsRebuild(s);
  }

  /** A line has no words exactly when it is all white space. */
  lemma {:induction false} NoWordsAllWhite(s: string)
    ensures Words(s) == [] <==> AllWhiteSpace(s)
    decreases |s|
  {
    if s != [] {
      if IsWhiteSpace(s[0]) {
        NoWordsAllWhite(s[1..]);
        assert AllWhiteSpace(s) <==> AllWhiteSpace(s[1..]) by {
          assert s == [s[0]] + s[1..];
        }
      } else {
        assert !AllWhiteSpace(s) by { assert s[0] in s; }
      }
    }
  }

  /** The tokens of a line: the lone empty token exactly when the line is
      blank, and otherwise its words, which are non-empty, free of white
      space and separated in the line by white space (`WordsSplit`). */
  lemma SplitTokens(line: string)
    ensures var items := SplitOnWhiteSpace(line);
            && (items == [""] <==> AllWhiteSpace(line))
            && (items != [""] ==> items == Words(line))
            && (items == [""] || forall w <- items :: w != [] && forall c <- w :: !IsWhiteSpace(c))
  {
    WordsAreWords(line);
    NoWordsAllWhite(line);
    var ws := Words(line);
    if ws != [] {
      assert ws[0] in ws;
      assert ws != [""];
    }
  }

  /** `text.split(/\n/)`: the pieces between line feeds, empty pieces kept. */
  function SplitLines(text: string): (lines: seq<string>)
    ensures |lines| >= 1
    ensures forall l <- lines :: '\n' !in l
    decreases |text|
  {
    var i := IndexOf(text, '\n');
    if i == |text| then [text] else [text[..i]] + SplitLines(text[i + 1..])
  }

  /** `lines.join("\n")` */
  function JoinLines(lines: seq<string>): string
    requires lines != []
  {
    if |lines| == 1 then lines[0] else lines[0] + "\n" + JoinLines(lines[1..])
  }

  /** Splitting on line feeds loses nothing: joining the pieces with line
      feeds gives the text back. */
  lemma {:induction false} SplitLinesJoin(text: string)
    ensures JoinLines(SplitLines(text)) == text
    decreases |text|
  {
    var i := IndexOf(text, '\n');
    if i < |text| {
      var rest := SplitLines(text[i + 1..]);
      SplitLinesJoin(text[i + 1..]);
      JoinCons(text[..i], rest);
      CutAt(text, i);
    }
  }

  lemma JoinCons(head: string, rest: seq<string>)
    requires rest != []
    ensures JoinLines([head] + rest) == head + "\n" + JoinLines(rest)
  {
    assert ([head] + rest)[1..] == rest;
  }

  lemma CutAt(text: string, i: nat)
    requires i < |text| && text[i] == '\n'
    ensures text == text[..i] + "\n" + text[i + 1..]
  {
    assert text == text[..i] + [text[i]] + text[i + 1..];
  }

}
