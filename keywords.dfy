/** The keyword extractor: lowercase the text, split it on runs of non-word
    characters and keep the tokens longer than two characters that are not in
    the stoplist. It is a filter over the token sequence, so order and
    repetitions survive. */
module Keywords {
  import opened JsString

  /** A character matched by `\w` in a regular expression without the `u` flag. */
  predicate IsWordChar(c: char)
  {
    ('a' <= c <= 'z') || ('A' <= c <= 'Z') || ('0' <= c <= '9') || c == '_'
  }

  predicate IsLowerWordChar(c: char)
  {
    IsWordChar(c) && !('A' <= c <= 'Z')
  }

  /** String.prototype.toLowerCase, one character at a time. ASCII capitals map
      to small letters; KELVIN SIGN and LATIN CAPITAL LETTER I WITH DOT ABOVE are
      the two other characters whose lower case holds a word character. Every
      other character is kept: what it maps to is a non-word character either
      way, so no token depends on it. */
  function LowerChar(c: char): string
  {
    if 'A' <= c <= 'Z' then [(c as int + 32) as char]
    else if c == '\U{212A}' then "k"
    else if c == '\U{0130}' then "i\U{0307}"
    else [c]
  }

  function Lower(s: string): string
  {
    if s == [] then [] else LowerChar(s[0]) + Lower(s[1..])
  }

  /** No ASCII capital survives lowering. */
  lemma {:induction false} LowerHasNoCapitals(s: string)
    ensures forall i :: 0 <= i < |Lower(s)| ==> !('A' <= Lower(s)[i] <= 'Z')
  {
    if s != [] {
      LowerHasNoCapitals(s[1..]);
      var h := LowerChar(s[0]);
      forall i | 0 <= i < |Lower(s)| ensures !('A' <= Lower(s)[i] <= 'Z') {
        if i >= |h| { assert Lower(s)[i] == Lower(s[1..])[i - |h|]; }
      }
    }
  }

  lemma {:induction false} LowerAppend(a: string, b: string)
    ensures Lower(a + b) == Lower(a) + Lower(b)
  {
    if a != [] {
      assert (a + b)[0] == a[0];
      assert (a + b)[1..] == a[1..] + b;
      LowerAppend(a[1..], b);
    } else {
      assert a + b == b;
    }
  }

  /** Number of leading word characters. */
  function WordRun(s: string): (n: nat)
    ensures n <= |s|
    ensures n < |s| ==> !IsWordChar(s[n])
  {
    if s != [] && IsWordChar(s[0]) then 1 + WordRun(s[1..]) else 0
  }

  lemma {:induction false} WordRunIsWord(s: string)
    ensures forall i :: 0 <= i < WordRun(s) ==> IsWordChar(s[i])
  {
    if s != [] && IsWordChar(s[0]) {
      WordRunIsWord(s[1..]);
    }
  }

  /** Number of leading non-word characters: the separator a `\W+` match consumes. */
  function SeparatorRun(s: string): (n: nat)
    ensures n <= |s|
    ensures n < |s| ==> IsWordChar(s[n])
  {
    if s != [] && !IsWordChar(s[0]) then 1 + SeparatorRun(s[1..]) else 0
  }

  lemma {:induction false} SeparatorRunIsSeparator(s: string)
    ensures forall i :: 0 <= i < SeparatorRun(s) ==> !IsWordChar(s[i])
  {
    if s != [] && !IsWordChar(s[0]) {
      SeparatorRunIsSeparator(s[1..]);
    }
  }

  lemma WordRunUnique(s: string, k: nat)
    requires k <= |s|
    requires forall i :: 0 <= i < k ==> IsWordChar(s[i])
    requires k < |s| ==> !IsWordChar(s[k])
    ensures WordRun(s) == k
  {
    WordRunIsWord(s);
  }

  lemma SeparatorRunUnique(s: string, k: nat)
    requires k <= |s|
    requires forall i :: 0 <= i < k ==> !IsWordChar(s[i])
    requires k < |s| ==> IsWordChar(s[k])
    ensures SeparatorRun(s) == k
  {
    SeparatorRunIsSeparator(s);
  }

  predicate AllWordChars(w: string)
  {
    forall i :: 0 <= i < |w| ==> IsWordChar(w[i])
  }

  /** String.prototype.split(/\W+/): the pieces between maximal runs of non-word
      characters, including the empty piece before a leading run and after a
      trailing one. */
  function SplitNonWord(s: string): (pieces: seq<string>)
    ensures |pieces| >= 1
    decreases |s|
  {
    var n := WordRun(s);
    if n == |s| then [s]
    else
      var m := SeparatorRun(s[n..]);
      [s[..n]] + SplitNonWord(s[n + m..])
  }

  const Stoplist: seq<string> :=
    ["the", "and", "for", "with", "what", "how", "when", "what", "you", "can", "will", "are", "not"]

  predicate Keep(w: string)
  {
    |w| > 2 && w !in Stoplist
  }

  function FilterKeep(ws: seq<string>): seq<string>
  {
    if ws == [] then [] else (if Keep(ws[0]) then [ws[0]] else []) + FilterKeep(ws[1..])
  }

  lemma {:induction false} FilterKeepSound(ws: seq<string>)
    ensures forall w :: w in FilterKeep(ws) ==> w in ws && Keep(w)
  {
    if ws != [] {
      FilterKeepSound(ws[1..]);
    }
  }

  lemma {:induction false} FilterKeepAppend(a: seq<string>, b: seq<string>)
    ensures FilterKeep(a + b) == FilterKeep(a) + FilterKeep(b)
  {
    if a != [] {
      assert (a + b)[0] == a[0];
      assert (a + b)[1..] == a[1..] + b;
      FilterKeepAppend(a[1..], b);
    } else {
      assert a + b == b;
    }
  }

  /** What every extracted keyword looks like. */
  predicate IsKeyword(w: string)
  {
    Keep(w) && forall i :: 0 <= i < |w| ==> IsLowerWordChar(w[i])
  }

  /** extractKeywords: every token it returns is lower case, made of word
      characters only, at least three long and not a stop word. */
  function ExtractKeywords(text: string): (r: seq<string>)
    ensures forall w :: w in r ==> IsKeyword(w)
  {
    var lowered := Lower(text);
    var pieces := SplitNonWord(lowered);
    var r := FilterKeep(pieces);
    FilterKeepSound(pieces);
    LowerHasNoCapitals(text);
    assert forall w :: w in r ==> IsKeyword(w) by {
      forall w | w in r ensures IsKeyword(w) {
        assert w in pieces;
        var k :| 0 <= k < |pieces| && pieces[k] == w;
        forall i | 0 <= i < |w| ensures IsLowerWordChar(w[i]) {
          SplitPiecesAreSlices(lowered, k, i);
        }
      }
    }
    r
  }

  /** Every character of a piece is a word character of the split string. */
  lemma {:induction false} SplitPiecesAreSlices(s: string, k: nat, i: nat)
    requires k < |SplitNonWord(s)| && i < |SplitNonWord(s)[k]|
    ensures SplitNonWord(s)[k][i] in s && IsWordChar(SplitNonWord(s)[k][i])
    decreases |s|
  {
    var n := WordRun(s);
    WordRunIsWord(s);
    if n < |s| {
      var m := SeparatorRun(s[n..]);
      SplitStep(s, n, m);
      if k > 0 {
        SplitPiecesAreSlices(s[n + m..], k - 1, i);
        SliceMember(s, n + m, SplitNonWord(s[n + m..])[k - 1][i]);
      }
    }
  }

  lemma SliceMember(s: string, j: nat, c: char)
    requires j <= |s| && c in s[j..]
    ensures c in s
  {
  }

  function KeptPieces(s: string): seq<string>
  {
    FilterKeep(SplitNonWord(s))
  }

  /** One step of the split: the leading word, then the rest after the separator. */
  lemma SplitStep(s: string, n: nat, m: nat)
    requires n == WordRun(s) && n < |s| && m == SeparatorRun(s[n..])
    ensures SplitNonWord(s) == [s[..n]] + SplitNonWord(s[n + m..])
  {
  }

  /** The same step, seen through the filter. */
  lemma KeptStep(s: string, n: nat, m: nat, head: string, tail: string)
    requires n == WordRun(s) && n < |s| && m == SeparatorRun(s[n..])
    requires head == s[..n] && tail == s[n + m..]
    ensures KeptPieces(s) == FilterKeep([head]) + KeptPieces(tail)
  {
    SplitStep(s, n, m);
    FilterKeepAppend([s[..n]], SplitNonWord(s[n + m..]));
  }

  lemma KeptKeyword(w: string)
    requires IsKeyword(w)
    ensures KeptPieces(w) == [w]
  {
    WordRunUnique(w, |w|);
    assert SplitNonWord(w) == [w];
    assert FilterKeep([w]) == [w] + FilterKeep([]);
  }

  /** Slices of w + " " + t around the space. */
  lemma AroundSpace(w: string, t: string)
    ensures (w + " " + t)[..|w|] == w
    ensures (w + " " + t)[|w|..] == " " + t
    ensures (w + " " + t)[|w| + 1..] == t
    ensures w + " " + t == w + (" " + t)
  {
  }

  /** A keyword, a space and a text starting with a word character: the
      keyword is the first kept piece and the text gives the rest. */
  lemma KeptAfterKeyword(w: string, t: string)
    requires IsKeyword(w) && t != [] && IsWordChar(t[0])
    ensures KeptPieces(w + " " + t) == [w] + KeptPieces(t)
  {
    var s := w + " " + t;
    AroundSpace(w, t);
    WordRunUnique(w + (" " + t), |w|);
    SeparatorRunUnique(" " + t, 1);
    KeptStep(s, |w|, 1, w, t);
    KeptKeyword(w);
  }

  lemma {:induction false} LowerOfLowerWord(w: string)
    requires forall i :: 0 <= i < |w| ==> IsLowerWordChar(w[i])
    ensures Lower(w) == w
  {
    if w != [] {
      assert IsLowerWordChar(w[0]);
      LowerOfLowerWord(w[1..]);
      assert Lower(w) == LowerChar(w[0]) + Lower(w[1..]);
      assert w == [w[0]] + w[1..];
    }
  }

  /** The first character of a join of keywords is a word character. */
  lemma JoinStartsWithWord(ws: seq<string>)
    requires |ws| >= 1 && IsKeyword(ws[0])
    ensures Join(" ", ws) != [] && IsWordChar(Join(" ", ws)[0])
  {
    if |ws| > 1 {
      assert Join(" ", ws) == ws[0] + " " + Join(" ", ws[1..]);
      assert Join(" ", ws)[0] == ws[0][0];
    }
  }

  /** Keywords joined by spaces are already lower case. */
  lemma {:induction false} LowerOfJoined(ws: seq<string>)
    requires forall w :: w in ws ==> IsKeyword(w)
    ensures Lower(Join(" ", ws)) == Join(" ", ws)
  {
    if |ws| == 1 {
      assert ws[0] in ws;
      LowerOfLowerWord(ws[0]);
    } else if |ws| > 1 {
      var t := Join(" ", ws[1..]);
      assert ws[0] in ws;
      LowerOfJoined(ws[1..]);
      LowerOfLowerWord(ws[0]);
      LowerAppend(ws[0] + " ", t);
      LowerAppend(ws[0], " ");
    }
  }

  /** The kept pieces of space-joined keywords are those keywords. */
  lemma {:induction false} KeptJoined(ws: seq<string>)
    requires forall w :: w in ws ==> IsKeyword(w)
    ensures KeptPieces(Join(" ", ws)) == ws
  {
    if ws == [] {
      assert SplitNonWord([]) == [[]];
    } else if |ws| == 1 {
      KeptKeyword(ws[0]);
    } else {
      var t := Join(" ", ws[1..]);
      JoinStartsWithWord(ws[1..]);
      KeptAfterKeyword(ws[0], t);
      KeptJoined(ws[1..]);
    }
  }

  /** Keywords joined by spaces extract back to the same sequence, in the same
      order and with the same repetitions. */
  lemma ExtractJoined(ws: seq<string>)
    requires forall w :: w in ws ==> IsKeyword(w)
    ensures ExtractKeywords(Join(" ", ws)) == ws
  {
    LowerOfJoined(ws);
    KeptJoined(ws);
  }

  /** Re-extracting from the space-joined keywords changes nothing. */
  lemma ExtractIdempotent(text: string)
    ensures ExtractKeywords(Join(" ", ExtractKeywords(text))) == ExtractKeywords(text)
  {
    ExtractJoined(ExtractKeywords(text));
  }
}
