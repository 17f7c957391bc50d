/**
 * The text helpers of `WebSearchTools`: Python's `str.split()` and
 * `" ".join`, `truncate_to_words`, `remove_emojis` and the last three steps of
 * `format_text` (collapse every whitespace run to one space, strip, drop
 * "Symbol, other" characters).
 */
module Text {

  /** Python's `str.isspace()` for one character: the test behind `str.split()`,
      `str.strip()` and the regular-expression class `\s`. */
  predicate IsSpace(c: char)
  {
    var n := c as int;
    (0x09 <= n <= 0x0D) || (0x1C <= n <= 0x20) || n == 0x85 || n == 0xA0 || n == 0x1680
    || (0x2000 <= n <= 0x200A) || n == 0x2028 || n == 0x2029 || n == 0x202F
    || n == 0x205F || n == 0x3000
  }

  /** A token produced by `str.split()`: non-empty and free of whitespace. */
  predicate IsWord(w: string)
  {
    |w| > 0 && forall i :: 0 <= i < |w| ==> !IsSpace(w[i])
  }

  /** The code points that the Unicode database puts in general category "So".
      The table itself is not modelled; it is an input of every operation that
      needs it. */
  type SymbolTable = char -> bool

  /** `unicodedata.category(c).startswith("So")`. No ASCII character is in
      category So; above ASCII the table decides. */
  predicate IsSo(so: SymbolTable, c: char)
  {
    c as int >= 0x80 && so(c)
  }

  /** No character of `s` is in category So. */
  predicate Clean(so: SymbolTable, s: string)
  {
    forall i :: 0 <= i < |s| ==> !IsSo(so, s[i])
  }

  /** Python's slice `s[:k]`, where a negative `k` counts from the end. */
  function SliceTo<T>(s: seq<T>, k: int): (r: seq<T>)
    ensures |r| == if k >= 0 then Min(k, |s|) else Max(|s| + k, 0)
    ensures r == s[..|r|]
  {
    if k >= 0 then s[..Min(k, |s|)] else s[..Max(|s| + k, 0)]
  }

  function Min(a: int, b: int): int { if a <= b then a else b }
  function Max(a: int, b: int): int { if a >= b then a else b }

  /** Length of the longest prefix of `s` without whitespace. */
  function WordEnd(s: string): (n: nat)
    ensures n <= |s|
    ensures forall i :: 0 <= i < n ==> !IsSpace(s[i])
    ensures n < |s| ==> IsSpace(s[n])
  {
    if s == [] || IsSpace(s[0]) then 0 else 1 + WordEnd(s[1..])
  }

  /** Length of the longest prefix of `s` made of whitespace. */
  function SpaceEnd(s: string): (n: nat)
    ensures n <= |s|
    ensures forall i :: 0 <= i < n ==> IsSpace(s[i])
    ensures n < |s| ==> !IsSpace(s[n])
  {
    if s == [] || !IsSpace(s[0]) then 0 else 1 + SpaceEnd(s[1..])
  }

  /** Python's `s.split()` with no separator: the maximal whitespace-free runs, in order. */
  function Split(s: string): (words: seq<string>)
    ensures forall k :: 0 <= k < |words| ==> IsWord(words[k])
    decreases |s|
  {
    if s == [] then []
    else if IsSpace(s[0]) then Split(s[1..])
    else
      var n := WordEnd(s);
      [s[..n]] + Split(s[n..])
  }

  /** Python's `sep.join(parts)`. */
  function JoinWith(sep: string, parts: seq<string>): string
  {
    if parts == [] then ""
    else if |parts| == 1 then parts[0]
    else parts[0] + sep + JoinWith(sep, parts[1..])
  }

  /** Python's `" ".join(words)`. */
  function Join(words: seq<string>): string
  {
    JoinWith(" ", words)
  }

  /** `truncate_to_words`: the text itself when it has at most `limit` tokens,
      otherwise its first `limit` tokens (Python slice) joined by single spaces. */
  function TruncateToWords(text: string, limit: int): string
  {
    var words := Split(text);
    if |words| <= limit then text else Join(SliceTo(words, limit))
  }

  /** `remove_emojis`: the characters of `text` outside category So, in order. */
  function RemoveEmojis(so: SymbolTable, text: string): (r: string)
    ensures |r| <= |text|
    ensures Clean(so, r)
  {
    if text == [] then []
    else (if IsSo(so, text[0]) then [] else [text[0]]) + RemoveEmojis(so, text[1..])
  }

  /** `re.sub(r"\s+", " ", s)`: every maximal whitespace run becomes one space. */
  function CollapseSpaces(s: string): (r: string)
    ensures |s| > 0 ==> |r| > 0 && r[0] == (if IsSpace(s[0]) then ' ' else s[0])
    ensures forall i :: 0 <= i < |r| && IsSpace(r[i]) ==> r[i] == ' '
    ensures forall i :: 0 <= i < |r| - 1 && IsSpace(r[i]) ==> !IsSpace(r[i + 1])
    decreases |s|
  {
    if s == [] then []
    else if IsSpace(s[0]) then
      var n := SpaceEnd(s);
      var rest := CollapseSpaces(s[n..]);
      assert rest == [] || !IsSpace(rest[0]);
      " " + rest
    else
      var n := WordEnd(s);
      var rest := CollapseSpaces(s[n..]);
      assert rest == [] || rest[0] == ' ';
      s[..n] + rest
  }

  /** Drops trailing whitespace. */
  function StripEnd(s: string): (r: string)
    ensures |r| <= |s| && r == s[..|r|]
    ensures forall i :: |r| <= i < |s| ==> IsSpace(s[i])
    ensures r == [] || !IsSpace(r[|r| - 1])
  {
    if s == [] || !IsSpace(s[|s| - 1]) then s else StripEnd(s[..|s| - 1])
  }

  /** Python's `s.strip()`: drops leading and trailing whitespace. */
  function Strip(s: string): (r: string)
    ensures r == [] || (!IsSpace(r[0]) && !IsSpace(r[|r| - 1]))
  {
    StripEnd(s[SpaceEnd(s)..])
  }

  /** The last three steps of `format_text`, applied to the text that HTML
      extraction and NFKC normalisation produced. */
  function FormatText(so: SymbolTable, extracted: string): (r: string)
    ensures Clean(so, r)
  {
    RemoveEmojis(so, Strip(CollapseSpaces(extracted)))
  }

  // ---------------------------------------------------------------- split/join

  /** A word followed by whitespace (or nothing) is split off as one token. */
  lemma SplitWordThen(w: string, t: string)
    requires IsWord(w)
    requires t == [] || IsSpace(t[0])
    ensures Split(w + t) == [w] + Split(t)
  {
    var s := w + t;
    assert s[..|w|] == w && s[|w|..] == t;
  }

  /** Leading whitespace does not change the tokens. */
  lemma {:induction false} SplitSkipSpaces(s: string, k: nat)
    requires k <= |s|
    requires forall i :: 0 <= i < k ==> IsSpace(s[i])
    ensures Split(s[k..]) == Split(s)
  {
    if k > 0 {
      assert s[1..][k - 1..] == s[k..];
      SplitSkipSpaces(s[1..], k - 1);
    }
  }

  /** Splitting undoes joining, for a list of proper tokens. */
  lemma {:induction false} SplitJoin(words: seq<string>)
    requires forall k :: 0 <= k < |words| ==> IsWord(words[k])
    ensures Split(Join(words)) == words
  {
    if |words| == 1 {
      assert words[0] + [] == words[0];
      SplitWordThen(words[0], []);
    } else if |words| > 1 {
      var rest := Join(words[1..]);
      assert Join(words) == words[0] + (" " + rest);
      SplitWordThen(words[0], " " + rest);
      assert (" " + rest)[1..] == rest;
      SplitJoin(words[1..]);
      assert words == [words[0]] + words[1..];
    }
  }

  // ---------------------------------------------------------- truncate_to_words

  /** What `truncate_to_words` returns: the text unchanged when it has at most
      `limit` tokens, otherwise exactly its first `limit` tokens joined by
      single spaces; in every case its tokens are the Python slice
      `split(text)[:limit]`. */
  lemma TruncateToWordsSpec(text: string, limit: int)
    ensures |Split(text)| <= limit ==> TruncateToWords(text, limit) == text
    ensures limit >= 0 && |Split(text)| > limit ==>
      TruncateToWords(text, limit) == Join(Split(text)[..limit])
    ensures Split(TruncateToWords(text, limit)) == SliceTo(Split(text), limit)
  {
    var words := Split(text);
    if |words| > limit {
      SplitJoin(SliceTo(words, limit));
    }
  }

  /** For a non-negative limit the result has `min(n, limit)` tokens, the
      first ones of the input in their order. */
  lemma TruncateToWordsCount(text: string, limit: nat)
    ensures Split(TruncateToWords(text, limit)) == Split(text)[..Min(|Split(text)|, limit)]
    ensures |Split(TruncateToWords(text, limit))| <= limit
  {
    TruncateToWordsSpec(text, limit);
  }

  /** Truncating twice to the same non-negative limit is truncating once. */
  lemma TruncateToWordsIdempotent(text: string, limit: nat)
    ensures TruncateToWords(TruncateToWords(text, limit), limit) == TruncateToWords(text, limit)
  {
    TruncateToWordsCount(text, limit);
  }

  /** A negative limit drops that many tokens from the end each time, so
      truncating twice equals truncating once only when the first call has
      already emptied the text. */
  lemma TruncateToWordsNegative(text: string, limit: int)
    requires limit < 0
    ensures |Split(TruncateToWords(text, limit))| == Max(|Split(text)| + limit, 0)
    ensures TruncateToWords(TruncateToWords(text, limit), limit) == TruncateToWords(text, limit)
      <==> |Split(text)| + limit <= 0
  {
    var once := TruncateToWords(text, limit);
    TruncateToWordsSpec(text, limit);
    TruncateToWordsSpec(once, limit);
    if |Split(text)| + limit <= 0 {
      assert once == Join([]);
    } else {
      assert |Split(TruncateToWords(once, limit))| < |Split(once)|;
    }
  }

  /** Truncation only ever adds plain spaces, so it keeps a text free of So characters. */
  lemma TruncateToWordsClean(so: SymbolTable, text: string, limit: int)
    requires Clean(so, text)
    ensures Clean(so, TruncateToWords(text, limit))
  {
    var words := Split(text);
    if |words| > limit {
      SplitClean(so, text);
      JoinClean(so, SliceTo(words, limit));
    }
  }

  lemma {:induction false} SplitClean(so: SymbolTable, s: string)
    requires Clean(so, s)
    ensures forall k :: 0 <= k < |Split(s)| ==> Clean(so, Split(s)[k])
    decreases |s|
  {
    if s != [] {
      if IsSpace(s[0]) {
        SplitClean(so, s[1..]);
      } else {
        var n := WordEnd(s);
        SplitClean(so, s[n..]);
      }
    }
  }

  lemma {:induction false} JoinClean(so: SymbolTable, words: seq<string>)
    requires forall k :: 0 <= k < |words| ==> Clean(so, words[k])
    ensures Clean(so, Join(words))
  {
    if |words| > 1 {
      JoinClean(so, words[1..]);
    }
  }

  // -------------------------------------------------------------- remove_emojis

  /** A character survives exactly when it occurs in the input and is not in category So. */
  lemma {:induction false} RemoveEmojisMembership(so: SymbolTable, text: string, c: char)
    ensures c in RemoveEmojis(so, text) <==> c in text && !IsSo(so, c)
  {
    if text != [] {
      RemoveEmojisMembership(so, text[1..], c);
      assert text == [text[0]] + text[1..];
    }
  }

  /** Filtering distributes over concatenation: the order of the kept characters is the input order. */
  lemma {:induction false} RemoveEmojisAppend(so: SymbolTable, a: string, b: string)
    ensures RemoveEmojis(so, a + b) == RemoveEmojis(so, a) + RemoveEmojis(so, b)
  {
    if a != [] {
      assert (a + b)[0] == a[0] && (a + b)[1..] == a[1..] + b;
      RemoveEmojisAppend(so, a[1..], b);
    } else {
      assert a + b == b;
    }
  }

  /** A text without So characters is left as it is. */
  lemma {:induction false} RemoveEmojisClean(so: SymbolTable, text: string)
    requires Clean(so, text)
    ensures RemoveEmojis(so, text) == text
  {
    if text != [] {
      RemoveEmojisClean(so, text[1..]);
    }
  }

  /** Removing the emojis twice is removing them once. */
  lemma RemoveEmojisIdempotent(so: SymbolTable, text: string)
    ensures RemoveEmojis(so, RemoveEmojis(so, text)) == RemoveEmojis(so, text)
  {
    RemoveEmojisClean(so, RemoveEmojis(so, text));
  }

  /** Pure ASCII text (such as the literal "No title") passes unchanged. */
  lemma RemoveEmojisAscii(so: SymbolTable, text: string)
    requires forall i :: 0 <= i < |text| ==> text[i] as int < 0x80
    ensures RemoveEmojis(so, text) == text
  {
    RemoveEmojisClean(so, text);
  }

  // ---------------------------------------------------------------- format_text

  /** Collapsing whitespace runs keeps the tokens. */
  lemma {:induction false} CollapseSpacesSplit(s: string)
    ensures Split(CollapseSpaces(s)) == Split(s)
    decreases |s|
  {
    if s != [] {
      if IsSpace(s[0]) {
        var n := SpaceEnd(s);
        var rest := CollapseSpaces(s[n..]);
        assert (" " + rest)[1..] == rest;
        CollapseSpacesSplit(s[n..]);
        SplitSkipSpaces(s, n);
      } else {
        var n := WordEnd(s);
        CollapseSpacesSplit(s[n..]);
        SplitWordThen(s[..n], CollapseSpaces(s[n..]));
      }
    }
  }

  /** Trailing whitespace does not change the tokens. */
  lemma {:induction false} SplitTrailingSpaces(s: string, k: nat)
    requires k <= |s|
    requires forall i :: k <= i < |s| ==> IsSpace(s[i])
    ensures Split(s[..k]) == Split(s)
    decreases |s|
  {
    if s == [] {
    } else if IsSpace(s[0]) {
      if k == 0 {
        SplitSkipSpaces(s, |s|);
        assert s[|s|..] == [];
      } else {
        assert s[..k][1..] == s[1..][..k - 1];
        SplitTrailingSpaces(s[1..], k - 1);
      }
    } else {
      var n := WordEnd(s);
      assert k < |s| ==> IsSpace(s[k]);
      assert n <= k;
      var p := s[..k];
      assert p[..n] == s[..n];
      assert WordEnd(p) == n;
      assert p[n..] == s[n..][..k - n];
      SplitTrailingSpaces(s[n..], k - n);
    }
  }

  /** Stripping keeps the tokens. */
  lemma StripSplit(s: string)
    ensures Split(Strip(s)) == Split(s)
  {
    var a := SpaceEnd(s);
    var t := s[a..];
    SplitTrailingSpaces(t, |StripEnd(t)|);
    SplitSkipSpaces(s, a);
  }

  /** Whitespace occurs only as single plain spaces between two other characters. */
  predicate SingleSpaced(x: string)
  {
    forall i :: 0 <= i < |x| && IsSpace(x[i]) ==> x[i] == ' ' && 0 < i < |x| - 1 && !IsSpace(x[i + 1])
  }

  /** Joining a word in front of a non-empty list puts one space after it. */
  lemma JoinCons(w: string, ws: seq<string>)
    requires |ws| > 0
    ensures Join([w] + ws) == w + " " + Join(ws)
  {
    assert ([w] + ws)[1..] == ws;
  }

  /** A space in a single-spaced text is followed by a single-spaced remainder
      that starts with a non-space character. */
  lemma SingleSpacedAfter(x: string, n: nat)
    requires SingleSpaced(x) && n < |x| && IsSpace(x[n])
    ensures n + 1 < |x| && !IsSpace(x[n + 1]) && SingleSpaced(x[n + 1..])
  {
    var y := x[n + 1..];
    forall i | 0 <= i < |y| && IsSpace(y[i])
      ensures y[i] == ' ' && 0 < i < |y| - 1 && !IsSpace(y[i + 1])
    {
      assert y[i] == x[n + 1 + i];
      assert i + 1 < |y| ==> y[i + 1] == x[n + 2 + i];
    }
  }

  /** A single-spaced text is the single-space join of its own tokens. */
  lemma {:induction false} JoinSplitSingleSpaced(x: string)
    requires SingleSpaced(x)
    ensures Join(Split(x)) == x
    decreases |x|
  {
    if x != [] {
      assert !IsSpace(x[0]);
      var n := WordEnd(x);
      var w := x[..n];
      assert Split(x) == [w] + Split(x[n..]);
      if n == |x| {
        assert x[n..] == [] && w == x;
      } else {
        var y := x[n + 1..];
        SingleSpacedAfter(x, n);
        assert x[n..][1..] == y;
        SplitSkipSpaces(x[n..], 1);
        JoinSplitSingleSpaced(y);
        assert Split(y) == [y[..WordEnd(y)]] + Split(y[WordEnd(y)..]);
        JoinCons(w, Split(y));
        assert x == w + " " + y;
      }
    }
  }

  /** Stripping a collapsed text leaves it single-spaced. */
  lemma StripSingleSpaced(c: string)
    requires forall i :: 0 <= i < |c| && IsSpace(c[i]) ==> c[i] == ' '
    requires forall i :: 0 <= i < |c| - 1 && IsSpace(c[i]) ==> !IsSpace(c[i + 1])
    ensures SingleSpaced(Strip(c))
  {
    var a := SpaceEnd(c);
    var x := Strip(c);
    assert x == c[a..][..|x|];
    forall i | 0 <= i < |x| && IsSpace(x[i])
      ensures x[i] == ' ' && 0 < i < |x| - 1 && !IsSpace(x[i + 1])
    {
      assert x[i] == c[a + i];
      assert i + 1 < |x| ==> x[i + 1] == c[a + i + 1];
    }
  }

  /** Collapsing and stripping, the steps before emoji removal, turn the
      extracted text into its tokens joined by single spaces. */
  lemma CollapseStripSplit(s: string)
    ensures Split(Strip(CollapseSpaces(s))) == Split(s)
    ensures Strip(CollapseSpaces(s)) == Join(Split(s))
  {
    var c := CollapseSpaces(s);
    CollapseSpacesSplit(s);
    StripSplit(c);
    StripSingleSpaced(c);
    var x := Strip(c);
    JoinSplitSingleSpaced(x);
  }

  /** `format_text` keeps the tokens of the extracted text, joined by single
      spaces, minus their So characters; on text without So characters it
      yields exactly those tokens joined by single spaces. */
  lemma FormatTextTokens(so: SymbolTable, extracted: string)
    ensures FormatText(so, extracted) == RemoveEmojis(so, Join(Split(extracted)))
    ensures Clean(so, extracted) ==> FormatText(so, extracted) == Join(Split(extracted))
  {
    CollapseStripSplit(extracted);
    if Clean(so, extracted) {
      SplitClean(so, extracted);
      JoinClean(so, Split(extracted));
      RemoveEmojisClean(so, Join(Split(extracted)));
    }
  }

  /** Emojis are removed after whitespace is collapsed, so a symbol standing
      alone between two words leaves a double space. */
  lemma FormatTextLeavesDoubleSpace()
    ensures FormatText(c => c == '\U{263A}', "a \U{263A} b") == "a  b"
  {
    var so: SymbolTable := c => c == '\U{263A}';
    SplitSmileyText();
    JoinCons("\U{263A}", ["b"]);
    JoinCons("a", ["\U{263A}", "b"]);
    assert Join(["a", "\U{263A}", "b"]) == "a \U{263A} b";
    RemoveSmiley();
    FormatTextTokens(so, "a \U{263A} b");
  }

  /** The tokens of the example text. */
  lemma SplitSmileyText()
    ensures Split("a \U{263A} b") == ["a", "\U{263A}", "b"]
  {
    SplitWordThen("b", "");
    assert "b" + "" == "b";
    assert Split(" b") == ["b"];
    SplitWordThen("\U{263A}", " b");
    assert "\U{263A}" + " b" == "\U{263A} b";
    assert Split("\U{263A} b") == ["\U{263A}", "b"];
    assert Split(" \U{263A} b") == ["\U{263A}", "b"];
    SplitWordThen("a", " \U{263A} b");
    assert "a" + " \U{263A} b" == "a \U{263A} b";
  }

  /** Removing the symbol from the joined example text leaves two spaces. */
  lemma RemoveSmiley()
    ensures RemoveEmojis(c => c == '\U{263A}', "a \U{263A} b") == "a  b"
  {
    var so: SymbolTable := c => c == '\U{263A}';
    assert RemoveEmojis(so, "b") == "b";
    assert RemoveEmojis(so, " b") == " b";
    assert RemoveEmojis(so, "\U{263A} b") == " b";
    assert RemoveEmojis(so, " \U{263A} b") == "  b";
    assert RemoveEmojis(so, "a \U{263A} b") == "a  b";
  }

  /** Formatting that result again closes the double space, so `format_text`
      is not idempotent. */
  lemma FormatTextNotIdempotent()
    ensures FormatText(c => c == '\U{263A}', "a  b") == "a b"
  {
    var so: SymbolTable := c => c == '\U{263A}';
    SplitWordThen("b", "");
    assert "b" + "" == "b";
    assert Split(" b") == ["b"];
    assert Split("  b") == ["b"];
    SplitWordThen("a", "  b");
    JoinCons("a", ["b"]);
    assert Join(["a", "b"]) == "a b";
    RemoveEmojisAscii(so, "a b");
    FormatTextTokens(so, "a  b");
  }
}
