/** `parse_command` of ai_services.py: the rewriting of a heard sentence
    into an expression.  It lowercases, deletes the stop words, replaces the
    operator phrases and then the number words (each table in its order),
    keeps only the characters an expression may hold, closes a trailing
    `sqrt(` and normalises the spacing.  `Rewrite` specifies it; the method
    `ParseCommand` runs the source's three `for` loops through `ReplaceAll`. */
module Voice {
  import opened Text
  import opened Tokens
  import opened Scanner

  /** Python's `s.replace(word, symbol)`: every occurrence of `word`, found left
      to right without overlap, is replaced by `symbol`. */
  function Replace(s: string, word: string, symbol: string): string
    requires word != []
    decreases |s|
  {
    if |s| < |word| then s
    else if s[..|word|] == word then symbol + Replace(s[|word|..], word, symbol)
    else [s[0]] + Replace(s[1..], word, symbol)
  }

  /** A string without an occurrence is left alone. */
  lemma {:induction false} ReplaceAbsent(s: string, word: string, symbol: string)
    requires word != [] && !Contains(s, word)
    ensures Replace(s, word, symbol) == s
    decreases |s|
  {
    if |s| >= |word| {
      ReplaceAbsent(s[1..], word, symbol);
    }
  }

  /** Replacing a word by itself changes nothing. */
  lemma {:induction false} ReplaceSelf(s: string, word: string)
    requires word != []
    ensures Replace(s, word, word) == s
    decreases |s|
  {
    if |s| >= |word| {
      if s[..|word|] == word {
        ReplaceSelf(s[|word|..], word);
        assert s == s[..|word|] + s[|word|..];
      } else {
        ReplaceSelf(s[1..], word);
      }
    }
  }

  predicate Replacements(pairs: seq<(string, string)>) {
    forall k | 0 <= k < |pairs| :: pairs[k].0 != []
  }

  /** `for word, symbol in table: text = text.replace(word, symbol)`. */
  function ReplaceEach(text: string, pairs: seq<(string, string)>): string
    requires Replacements(pairs)
    decreases |pairs|
  {
    if pairs == [] then text
    else
      var last := pairs[|pairs| - 1];
      Replace(ReplaceEach(text, pairs[..|pairs| - 1]), last.0, last.1)
  }

  /** A word holding a character the text lacks does not occur in it. */
  lemma {:induction false} MissingChar(s: string, word: string, c: char)
    requires c in word && forall k | 0 <= k < |s| :: s[k] != c
    ensures !Contains(s, word)
    decreases |s|
  {
    if s != [] {
      assert forall k | 0 <= k < |s| - 1 :: s[1..][k] == s[k + 1];
      MissingChar(s[1..], word, c);
      if |word| <= |s| {
        var j :| 0 <= j < |word| && word[j] == c;
        assert s[..|word|][j] != c;
      }
    }
  }

  /** A word holding two adjacent characters the text never has side by side
      does not occur in it. */
  lemma {:induction false} MissingPair(s: string, word: string, j: nat)
    requires j + 1 < |word|
    requires forall k | 0 <= k < |s| - 1 :: !(s[k] == word[j] && s[k + 1] == word[j + 1])
    ensures !Contains(s, word)
    decreases |s|
  {
    if s != [] {
      assert forall k | 0 <= k < |s| - 2 :: s[1..][k] == s[k + 1];
      MissingPair(s[1..], word, j);
      if |word| <= |s| {
        assert s[..|word|][j] == s[j] && s[..|word|][j + 1] == s[j + 1];
      }
    }
  }

  /** A text that starts with the word has it replaced there first. */
  lemma ReplaceFront(word: string, rest: string, symbol: string)
    requires word != []
    ensures Replace(word + rest, word, symbol) == symbol + Replace(rest, word, symbol)
  {
    assert (word + rest)[..|word|] == word;
    assert (word + rest)[|word|..] == rest;
  }

  /** A prefix without the word's first character is kept as it is. */
  lemma {:induction false} ReplaceSkip(prefix: string, rest: string, word: string, symbol: string)
    requires word != [] && word[0] !in prefix
    ensures Replace(prefix + rest, word, symbol) == prefix + Replace(rest, word, symbol)
    decreases |prefix|
  {
    var s := prefix + rest;
    if prefix == [] {
      assert s == rest;
    } else {
      ReplaceSkip(prefix[1..], rest, word, symbol);
      assert s[1..] == prefix[1..] + rest;
      if |s| < |word| {
        assert Replace(rest, word, symbol) == rest;
      } else {
        assert s[..|word|][0] == prefix[0];
        assert Replace(s, word, symbol) == [s[0]] + Replace(s[1..], word, symbol);
      }
    }
  }

  /** The passes so far, then the next one. */
  lemma ReplaceEachNext(text: string, pairs: seq<(string, string)>, i: nat)
    requires Replacements(pairs) && i < |pairs|
    ensures ReplaceEach(text, pairs[..i + 1]) == Replace(ReplaceEach(text, pairs[..i]), pairs[i].0, pairs[i].1)
  {
    assert pairs[..i + 1][..i] == pairs[..i];
  }

  /** A pass whose word does not occur leaves the text alone. */
  lemma ReplaceEachKeeps(text: string, pairs: seq<(string, string)>, i: nat, t: string)
    requires Replacements(pairs) && i < |pairs|
    requires ReplaceEach(text, pairs[..i]) == t && !Contains(t, pairs[i].0)
    ensures ReplaceEach(text, pairs[..i + 1]) == t
  {
    ReplaceEachNext(text, pairs, i);
    ReplaceAbsent(t, pairs[i].0, pairs[i].1);
  }

  /** The last pass, when its word does not occur, leaves the text alone. */
  lemma ReplaceEachKeepsLast(text: string, pairs: seq<(string, string)>, t: string)
    requires Replacements(pairs) && pairs != []
    requires ReplaceEach(text, pairs[..|pairs| - 1]) == t && !Contains(t, pairs[|pairs| - 1].0)
    ensures ReplaceEach(text, pairs) == t
  {
    ReplaceAbsent(t, pairs[|pairs| - 1].0, pairs[|pairs| - 1].1);
  }

  /** Passes whose words do not occur leave the text alone. */
  lemma {:induction false} ReplaceEachMisses(text: string, pairs: seq<(string, string)>, i: nat, j: nat, t: string)
    requires Replacements(pairs) && i <= j <= |pairs|
    requires ReplaceEach(text, pairs[..i]) == t
    requires forall k | i <= k < j :: !Contains(t, pairs[k].0)
    ensures ReplaceEach(text, pairs[..j]) == t
    decreases j
  {
    if i < j {
      ReplaceEachMisses(text, pairs, i, j - 1, t);
      ReplaceEachKeeps(text, pairs, j - 1, t);
    }
  }

  /** The remaining passes, none of whose words occur, leave the text alone. */
  lemma ReplaceEachMissesRest(text: string, pairs: seq<(string, string)>, i: nat, t: string)
    requires Replacements(pairs) && i <= |pairs|
    requires ReplaceEach(text, pairs[..i]) == t
    requires forall k | i <= k < |pairs| :: !Contains(t, pairs[k].0)
    ensures ReplaceEach(text, pairs) == t
  {
    ReplaceEachMisses(text, pairs, i, |pairs|, t);
    assert pairs[..|pairs|] == pairs;
  }

  /** A pass whose word occurs once, after a prefix without the word's first
      character, puts the symbol in its place. */
  lemma ReplaceEachHits(text: string, pairs: seq<(string, string)>, i: nat, prefix: string, rest: string)
    requires Replacements(pairs) && i < |pairs|
    requires ReplaceEach(text, pairs[..i]) == prefix + pairs[i].0 + rest
    requires pairs[i].0[0] !in prefix && !Contains(rest, pairs[i].0)
    ensures ReplaceEach(text, pairs[..i + 1]) == prefix + pairs[i].1 + rest
  {
    var (word, symbol) := pairs[i];
    ReplaceEachNext(text, pairs, i);
    assert prefix + word + rest == prefix + (word + rest);
    ReplaceSkip(prefix, word + rest, word, symbol);
    ReplaceFront(word, rest, symbol);
    ReplaceAbsent(rest, word, symbol);
  }

  /** A table of which exactly one word occurs, once, after a prefix without
      its first character: the passes put that word's symbol in its place. */
  lemma ReplaceEachOnly(text: string, pairs: seq<(string, string)>, i: nat, prefix: string, rest: string)
    requires Replacements(pairs) && i < |pairs| && text == prefix + pairs[i].0 + rest
    requires pairs[i].0[0] !in prefix && !Contains(rest, pairs[i].0)
    requires forall k | 0 <= k < i :: !Contains(text, pairs[k].0)
    requires forall k | i < k < |pairs| :: !Contains(prefix + pairs[i].1 + rest, pairs[k].0)
    ensures ReplaceEach(text, pairs) == prefix + pairs[i].1 + rest
  {
    assert pairs[..0] == [];
    ReplaceEachMisses(text, pairs, 0, i, text);
    ReplaceEachHits(text, pairs, i, prefix, rest);
    ReplaceEachMissesRest(text, pairs, i + 1, prefix + pairs[i].1 + rest);
  }

  /** Every table replaces non-empty words. */
  lemma TablesReplace()
    ensures Replacements(Deletions) && Replacements(OperatorMap) && Replacements(NumberMap)
  {
  }

  /** `stop_words`, each paired with the empty string that replaces it. */
  const Deletions: seq<(string, string)> := [
    ("what is", ""), ("what's", ""), ("calculate", ""), ("compute", ""), ("can you tell me", "")]

  /** `operator_map`, in its insertion order. */
  const OperatorMap: seq<(string, string)> := [
    ("plus", "+"), ("add", "+"), ("minus", "-"), ("subtract", "-"),
    ("times", "*"), ("multiplied by", "*"), ("divided by", "/"), ("over", "/"),
    ("to the power of", "**"),
    ("power", "**"),
    ("square root of", "sqrt("), ("open bracket", "("), ("open parentheses", "("),
    ("close bracket", ")"), ("close parentheses", ")"), ("point", "."), ("dot", ".")]

  /** `number_map`, in its insertion order. */
  const NumberMap: seq<(string, string)> := [
    ("zero", "0"), ("one", "1"), ("two", "2"), ("to", "2"), ("too", "2"),
    ("three", "3"), ("four", "4"), ("for", "4"), ("five", "5"), ("six", "6"),
    ("seven", "7"), ("eight", "8"), ("nine", "9"), ("ten", "10")]

  /** The characters the clean-up pattern keeps: digits, `+ - * / . ( )`,
      the letters `s q r t` and the space. */
  const KeptChars: string := "0123456789+-*/.()sqrt "

  /** `re.sub(r'[^0-9\+\-\*\/\.\(\)sqrt ]', '', text)`. */
  function Filter(s: string): (r: string)
    ensures forall k | 0 <= k < |r| :: r[k] in KeptChars
    ensures forall k | 0 <= k < |s| :: s[k] in KeptChars ==> s[k] in r
  {
    if s == [] then []
    else if s[0] in KeptChars then [s[0]] + Filter(s[1..])
    else Filter(s[1..])
  }

  /** Text made only of kept characters passes the clean-up unchanged. */
  lemma {:induction false} FilterKeeps(s: string)
    requires forall k | 0 <= k < |s| :: s[k] in KeptChars
    ensures Filter(s) == s
  {
    if s != [] {
      FilterKeeps(s[1..]);
    }
  }

  /** The clean-up works character by character. */
  lemma {:induction false} FilterAppend(a: string, b: string)
    ensures Filter(a + b) == Filter(a) + Filter(b)
    decreases |a|
  {
    if a == [] {
      assert a + b == b;
    } else {
      assert (a + b)[1..] == a[1..] + b;
      FilterAppend(a[1..], b);
    }
  }

  /** Python's `s.split(sep)` for a non-empty separator. */
  function Split(s: string, sep: string): (parts: seq<string>)
    requires sep != []
    ensures |parts| >= 1
    decreases |s|
  {
    if |s| < |sep| then [s]
    else if s[..|sep|] == sep then [""] + Split(s[|sep|..], sep)
    else
      var p := Split(s[1..], sep);
      [[s[0]] + p[0]] + p[1..]
  }

  /** `sep.join(parts)`. */
  function Join(parts: seq<string>, sep: string): string {
    if parts == [] then ""
    else if |parts| == 1 then parts[0]
    else parts[0] + sep + Join(parts[1..], sep)
  }

  /** Splitting and joining back with the same separator gives the text again. */
  lemma {:induction false} SplitJoin(s: string, sep: string)
    requires sep != []
    ensures Join(Split(s, sep), sep) == s
    decreases |s|
  {
    if |s| >= |sep| {
      if s[..|sep|] == sep {
        SplitJoin(s[|sep|..], sep);
        SplitAtSep(s, sep);
        JoinAfterEmpty(Split(s[|sep|..], sep), sep);
        assert s == s[..|sep|] + s[|sep|..];
      } else {
        SplitJoin(s[1..], sep);
        SplitPast(s, sep);
        JoinExtendFirst(s[0], Split(s[1..], sep), sep);
        assert s == [s[0]] + s[1..];
      }
    }
  }

  /** The step of `Split` where the text does not start with the separator. */
  lemma SplitPast(s: string, sep: string)
    requires sep != [] && |s| >= |sep| && s[..|sep|] != sep
    ensures var p := Split(s[1..], sep);
      Split(s, sep) == [[s[0]] + p[0]] + p[1..]
  {
  }

  /** Joining after an empty first part puts the separator in front. */
  lemma JoinAfterEmpty(parts: seq<string>, sep: string)
    requires |parts| >= 1
    ensures Join([""] + parts, sep) == sep + Join(parts, sep)
  {
    assert ([""] + parts)[1..] == parts;
  }

  /** Joining with a character put in front of the first part puts it in front of the whole. */
  lemma JoinExtendFirst(c: char, parts: seq<string>, sep: string)
    requires |parts| >= 1
    ensures Join([[c] + parts[0]] + parts[1..], sep) == [c] + Join(parts, sep)
  {
    var q := [[c] + parts[0]] + parts[1..];
    assert q[1..] == parts[1..];
  }

  /** There is something after a split point exactly when the separator occurs. */
  lemma {:induction false} SplitFindsSeparator(s: string, sep: string)
    requires sep != []
    ensures |Split(s, sep)| > 1 <==> Contains(s, sep)
    decreases |s|
  {
    if |s| < |sep| {
      if s != [] {
        SplitFindsSeparator(s[1..], sep);
      }
    } else if s[..|sep|] != sep {
      SplitFindsSeparator(s[1..], sep);
    }
  }

  /** A text without the separator splits into itself alone. */
  lemma {:induction false} SplitAbsent(s: string, sep: string)
    requires sep != [] && !Contains(s, sep)
    ensures Split(s, sep) == [s]
    decreases |s|
  {
    if |s| >= |sep| {
      SplitAbsent(s[1..], sep);
      assert s == [s[0]] + s[1..];
    }
  }

  /** One separator, after a prefix without its first character, splits the
      text into what comes before and what comes after. */
  lemma {:induction false} SplitOnce(prefix: string, sep: string, rest: string)
    requires sep != [] && sep[0] !in prefix && !Contains(rest, sep)
    ensures Split(prefix + sep + rest, sep) == [prefix, rest]
    decreases |prefix|
  {
    var s := prefix + sep + rest;
    if prefix == [] {
      assert s == sep + rest && s[..|sep|] == sep && s[|sep|..] == rest;
      SplitAbsent(rest, sep);
    } else {
      assert s[..|sep|][0] == prefix[0];
      assert s[1..] == prefix[1..] + sep + rest;
      SplitOnce(prefix[1..], sep, rest);
      assert [s[0]] + prefix[1..] == prefix;
    }
  }

  /** A text built around a word contains it. */
  lemma {:induction false} ContainsWithin(prefix: string, word: string, rest: string)
    ensures Contains(prefix + word + rest, word)
    decreases |prefix|
  {
    var s := prefix + word + rest;
    if prefix == [] {
      assert s[..|word|] == word;
    } else {
      assert s[1..] == prefix[1..] + word + rest;
      ContainsWithin(prefix[1..], word, rest);
    }
  }

  /** `text.split('sqrt(')[-1]`: what follows the last `sqrt(`. */
  function AfterLastSqrt(text: string): string {
    var parts := Split(text, "sqrt(");
    parts[|parts| - 1]
  }

  /** Step 5: a `sqrt(` with no `)` after its last occurrence gets one `)` at the end. */
  function CloseSqrt(text: string): string {
    if Contains(text, "sqrt(") && ')' !in AfterLastSqrt(text) then text + ")" else text
  }

  /** Appending a character that does not end the separator extends the last part. */
  lemma {:induction false} SplitAppend(s: string, sep: string, c: char)
    requires sep != [] && sep[|sep| - 1] != c
    ensures var p := Split(s, sep);
      Split(s + [c], sep) == p[..|p| - 1] + [p[|p| - 1] + [c]]
    decreases |s|
  {
    if |s| < |sep| {
      SplitAppendShort(s, sep, c);
    } else if s[..|sep|] == sep {
      SplitAppend(s[|sep|..], sep, c);
      SplitAppendAtSep(s, sep, c);
    } else {
      SplitAppend(s[1..], sep, c);
      SplitAppendPast(s, sep, c);
    }
  }

  /** The base case of `SplitAppend`: too short to hold the separator. */
  lemma SplitAppendShort(s: string, sep: string, c: char)
    requires sep != [] && sep[|sep| - 1] != c && |s| < |sep|
    ensures Split(s + [c], sep) == [s + [c]]
  {
    var t := s + [c];
    if |t| == |sep| {
      assert t[..|sep|][|sep| - 1] == c;
      assert Split(t[1..], sep) == [t[1..]];
      assert t == [t[0]] + t[1..];
    }
  }

  /** The step of `SplitAppend` where the text starts with the separator. */
  lemma SplitAppendAtSep(s: string, sep: string, c: char)
    requires sep != [] && |s| >= |sep| && s[..|sep|] == sep
    requires var p := Split(s[|sep|..], sep);
      Split(s[|sep|..] + [c], sep) == p[..|p| - 1] + [p[|p| - 1] + [c]]
    ensures var p := Split(s, sep);
      Split(s + [c], sep) == p[..|p| - 1] + [p[|p| - 1] + [c]]
  {
    var t, rest := s + [c], s[|sep|..];
    SnocSlices(s, |sep|, c);
    SplitAtSep(t, sep);
    SplitAtSep(s, sep);
    ExtendLastAfter("", Split(rest, sep), Split(rest + [c], sep), c);
  }

  /** Appending a character leaves a prefix alone and extends the suffix. */
  lemma SnocSlices(s: string, n: nat, c: char)
    requires n <= |s|
    ensures (s + [c])[..n] == s[..n] && (s + [c])[n..] == s[n..] + [c]
  {
  }

  lemma SplitAtSep(s: string, sep: string)
    requires sep != [] && |s| >= |sep| && s[..|sep|] == sep
    ensures Split(s, sep) == [""] + Split(s[|sep|..], sep)
  {
  }

  /** The step of `SplitAppend` where the text does not start with the separator. */
  lemma SplitAppendPast(s: string, sep: string, c: char)
    requires sep != [] && |s| >= |sep| && s[..|sep|] != sep
    requires var p := Split(s[1..], sep);
      Split(s[1..] + [c], sep) == p[..|p| - 1] + [p[|p| - 1] + [c]]
    ensures var p := Split(s, sep);
      Split(s + [c], sep) == p[..|p| - 1] + [p[|p| - 1] + [c]]
  {
    var rest := s[1..];
    var p, p' := Split(rest, sep), Split(rest + [c], sep);
    assert Split(s + [c], sep) == [[s[0]] + p'[0]] + p'[1..] by {
      var t := s + [c];
      assert t[..|sep|] == s[..|sep|];
      assert t[1..] == rest + [c];
    }
    assert Split(s, sep) == [[s[0]] + p[0]] + p[1..];
    ExtendLastWithin(s[0], p, p', c);
  }

  /** Extending the last part of `parts` extends the last part of `[h] + parts`. */
  lemma ExtendLastAfter(h: string, parts: seq<string>, parts': seq<string>, c: char)
    requires |parts| >= 1 && parts' == parts[..|parts| - 1] + [parts[|parts| - 1] + [c]]
    ensures var q := [h] + parts;
      [h] + parts' == q[..|q| - 1] + [q[|q| - 1] + [c]]
  {
    var q := [h] + parts;
    assert q[..|q| - 1] == [h] + parts[..|parts| - 1];
  }

  /** Extending the last part of `parts` extends the last part once its first
      part gets `x` in front. */
  lemma ExtendLastWithin(x: char, parts: seq<string>, parts': seq<string>, c: char)
    requires |parts| >= 1 && parts' == parts[..|parts| - 1] + [parts[|parts| - 1] + [c]]
    ensures var q := [[x] + parts[0]] + parts[1..];
      [[x] + parts'[0]] + parts'[1..] == q[..|q| - 1] + [q[|q| - 1] + [c]]
  {
    var q := [[x] + parts[0]] + parts[1..];
    if |parts| > 1 {
      assert parts'[0] == parts[0];
      assert parts'[1..] == parts[1..|parts| - 1] + [parts[|parts| - 1] + [c]];
      assert q[..|q| - 1] == [[x] + parts[0]] + parts[1..|parts| - 1];
    } else {
      assert [x] + (parts[0] + [c]) == ([x] + parts[0]) + [c];
    }
  }

  /** After step 5 the last `sqrt(` is always followed by some `)`. */
  lemma CloseSqrtCloses(text: string)
    ensures Contains(text, "sqrt(") && ')' !in AfterLastSqrt(text) ==> CloseSqrt(text) == text + ")"
    ensures !(Contains(text, "sqrt(") && ')' !in AfterLastSqrt(text)) ==> CloseSqrt(text) == text
    ensures Contains(CloseSqrt(text), "sqrt(") ==> ')' in AfterLastSqrt(CloseSqrt(text))
  {
    var r := CloseSqrt(text);
    if r != text {
      SplitAppend(text, "sqrt(", ')');
      var p := Split(text, "sqrt(");
      assert AfterLastSqrt(r) == p[|p| - 1] + ")";
      assert AfterLastSqrt(r)[|AfterLastSqrt(r)| - 1] == ')';
    }
  }

  predicate NotSpace(c: char) { !IsSpace(c) }

  predicate NoSpace(s: string) { forall k | 0 <= k < |s| :: !IsSpace(s[k]) }

  /** Python's `s.split()`: the maximal runs of non-space characters. */
  function Words(s: string): (words: seq<string>)
    ensures forall k | 0 <= k < |words| :: words[k] != [] && NoSpace(words[k])
    decreases |s|
  {
    if s == [] then []
    else if IsSpace(s[0]) then Words(s[1..])
    else
      var n := RunEnd(s, 0, NotSpace);
      [s[..n]] + Words(s[n..])
  }

  /** `' '.join(text.split())`. */
  function Normalize(s: string): string {
    Join(Words(s), " ")
  }

  /** No space at either end and never two spaces in a row. */
  predicate WellSpaced(r: string) {
    && (r != [] ==> !IsSpace(r[0]) && !IsSpace(r[|r| - 1]))
    && (forall k | 0 <= k < |r| - 1 :: IsSpace(r[k]) ==> r[k] == ' ' && !IsSpace(r[k + 1]))
  }

  lemma {:induction false} JoinWellSpaced(words: seq<string>)
    requires forall k | 0 <= k < |words| :: words[k] != [] && NoSpace(words[k])
    ensures WellSpaced(Join(words, " "))
    ensures words != [] ==> Join(words, " ") != []
    decreases |words|
  {
    if |words| > 1 {
      var w := words[0];
      var rest := Join(words[1..], " ");
      JoinWellSpaced(words[1..]);
      var r := Join(words, " ");
      assert r == w + " " + rest;
      forall k | 0 <= k < |r| - 1 && IsSpace(r[k])
        ensures r[k] == ' ' && !IsSpace(r[k + 1])
      {
        if k > |w| {
          assert r[k] == rest[k - |w| - 1];
        }
      }
    }
  }

  /** The text with its white space taken out. */
  function Squeeze(s: string): string {
    if s == [] then [] else (if IsSpace(s[0]) then [] else [s[0]]) + Squeeze(s[1..])
  }

  lemma {:induction false} SqueezeAppend(a: string, b: string)
    ensures Squeeze(a + b) == Squeeze(a) + Squeeze(b)
    decreases |a|
  {
    if a != [] {
      assert (a + b)[1..] == a[1..] + b;
      SqueezeAppend(a[1..], b);
    } else {
      assert a + b == b;
    }
  }

  lemma {:induction false} SqueezeNoSpace(s: string)
    requires NoSpace(s)
    ensures Squeeze(s) == s
  {
    if s != [] {
      SqueezeNoSpace(s[1..]);
    }
  }

  lemma {:induction false} SqueezeMembers(s: string)
    ensures forall k | 0 <= k < |s| :: !IsSpace(s[k]) ==> s[k] in Squeeze(s)
    ensures forall c | c in Squeeze(s) :: c in s && !IsSpace(c)
  {
    if s != [] {
      SqueezeMembers(s[1..]);
      assert forall k | 1 <= k < |s| :: s[k] == s[1..][k - 1];
    }
  }

  /** Normalising only touches white space: the other characters stay, in order. */
  lemma {:induction false} NormalizeKeepsText(s: string)
    ensures Squeeze(Normalize(s)) == Squeeze(s)
    decreases |s|
  {
    if s != [] {
      if IsSpace(s[0]) {
        NormalizeKeepsText(s[1..]);
      } else {
        var n := RunEnd(s, 0, NotSpace);
        var w := s[..n];
        NormalizeKeepsText(s[n..]);
        assert s == w + s[n..];
        SqueezeAppend(w, s[n..]);
        SqueezeNoSpace(w);
        var ws := Words(s[n..]);
        if ws != [] {
          assert Normalize(s) == w + " " + Normalize(s[n..]);
          SqueezeAppend(w + " ", Normalize(s[n..]));
          SqueezeAppend(w, " ");
        }
      }
    }
  }

  /** `' '.join(text.split())` leaves no space at the ends and none doubled,
      and every character it leaves is a space or came from the text. */
  lemma NormalizeShape(s: string)
    ensures WellSpaced(Normalize(s))
    ensures forall k | 0 <= k < |Normalize(s)| :: Normalize(s)[k] == ' ' || Normalize(s)[k] in s
  {
    var r := Normalize(s);
    JoinWellSpaced(Words(s));
    NormalizeKeepsText(s);
    SqueezeMembers(r);
    SqueezeMembers(s);
  }

  /** Steps 1 to 3: the three replacement passes, in order. */
  function Translate(text: string): string {
    ReplaceEach(ReplaceEach(ReplaceEach(text, Deletions), OperatorMap), NumberMap)
  }

  /** `parse_command(command)`, `None` being the missing command. */
  function Rewrite(command: Option<string>): string {
    match command
    case None => ""
    case Some(c) => Normalize(CloseSqrt(Filter(Translate(Lower(c)))))
  }

  /** One of the source's `for word, symbol in table` loops. */
  method ReplaceAll(text: string, pairs: seq<(string, string)>) returns (r: string)
    requires Replacements(pairs)
    ensures r == ReplaceEach(text, pairs)
  {
    r := text;
    for i := 0 to |pairs|
      invariant r == ReplaceEach(text, pairs[..i])
    {
      ReplaceEachNext(text, pairs, i);
      r := Replace(r, pairs[i].0, pairs[i].1);
    }
    assert pairs[..|pairs|] == pairs;
  }

  method ParseCommand(command: Option<string>) returns (r: string)
    ensures r == Rewrite(command)
  {
    if command.None? {
      return "";
    }
    TablesReplace();
    var text := Lower(command.value);
    text := ReplaceAll(text, Deletions);
    text := ReplaceAll(text, OperatorMap);
    text := ReplaceAll(text, NumberMap);
    text := Filter(text);
    if Contains(text, "sqrt(") && ')' !in AfterLastSqrt(text) {
      text := text + ")";
    }
    r := Normalize(text);
  }

  /** The result holds only digits, `+ - * / . ( )`, the letters `s q r t`
      and single inner spaces. */
  lemma {:induction false} RewriteShape(command: Option<string>)
    ensures command.None? ==> Rewrite(command) == ""
    ensures WellSpaced(Rewrite(command))
    ensures forall k | 0 <= k < |Rewrite(command)| :: Rewrite(command)[k] in KeptChars
  {
    if command.Some? {
      var closed := CloseSqrt(Filter(Translate(Lower(command.value))));
      assert forall k | 0 <= k < |closed| :: closed[k] in KeptChars;
      NormalizeShape(closed);
    }
  }

  /** Case does not matter: the command is lowercased first. */
  lemma CaseInsensitive(s: string)
    ensures Rewrite(Some(s)) == Rewrite(Some(Lower(s)))
  {
    LowerIdempotent(s);
  }

  /** The characters of an expression other than letters. */
  const SymbolChars: string := "0123456789+-*/.() "

  /** The clean-up the pattern in step 4 is meant to do: keep the symbols and
      the function name `sqrt`, and drop every other letter.  The pattern as
      written keeps `s`, `q`, `r` and `t` wherever they occur (`Filter`). */
  function KeepSymbols(s: string): string
    decreases |s|
  {
    if s == [] then []
    else if StartsWith(s, "sqrt") then "sqrt" + KeepSymbols(s[4..])
    else if s[0] in SymbolChars then [s[0]] + KeepSymbols(s[1..])
    else KeepSymbols(s[1..])
  }

  /** Every letter `KeepSymbols` leaves belongs to a `sqrt`: taking the
      occurrences of `sqrt` out leaves symbols only. */
  lemma {:induction false} KeepSymbolsLetters(s: string)
    ensures forall k | 0 <= k < |Replace(KeepSymbols(s), "sqrt", "")| :: Replace(KeepSymbols(s), "sqrt", "")[k] in SymbolChars
    decreases |s|
  {
    if s != [] {
      if StartsWith(s, "sqrt") {
        KeepSymbolsLetters(s[4..]);
        ReplaceFront("sqrt", KeepSymbols(s[4..]), "");
        assert "" + Replace(KeepSymbols(s[4..]), "sqrt", "") == Replace(KeepSymbols(s[4..]), "sqrt", "");
      } else if s[0] in SymbolChars {
        KeepSymbolsLetters(s[1..]);
        ReplaceSkip([s[0]], KeepSymbols(s[1..]), "sqrt", "");
      } else {
        KeepSymbolsLetters(s[1..]);
      }
    }
  }

  /** Before the first `s` the corrected clean-up also works character by
      character. */
  lemma {:induction false} KeepSymbolsAppend(a: string, b: string)
    requires 's' !in a
    ensures KeepSymbols(a + b) == KeepSymbols(a) + KeepSymbols(b)
    decreases |a|
  {
    if a == [] {
      assert a + b == b;
    } else {
      var s := a + b;
      var head := if a[0] in SymbolChars then [a[0]] else [];
      assert s[0] == a[0] != 's' && s[1..] == a[1..] + b;
      KeepSymbolsStep(s);
      KeepSymbolsStep(a);
      KeepSymbolsAppend(a[1..], b);
      ConcatAssoc(head, KeepSymbols(a[1..]), KeepSymbols(b));
    }
  }

  /** A text that does not start with `s` loses or keeps its first character. */
  lemma KeepSymbolsStep(s: string)
    requires s != [] && s[0] != 's'
    ensures KeepSymbols(s) == (if s[0] in SymbolChars then [s[0]] else []) + KeepSymbols(s[1..])
  {
    assert !StartsWith(s, "sqrt");
  }

  /** On text without the letters `s`, `q`, `r`, `t` the corrected clean-up
      and the one written agree. */
  lemma {:induction false} KeepSymbolsAgrees(s: string)
    requires forall k | 0 <= k < |s| :: s[k] !in "sqrt"
    ensures KeepSymbols(s) == Filter(s)
    decreases |s|
  {
    if s != [] {
      assert s[0] != 's';
      assert forall k | 0 <= k < |s| - 1 :: s[1..][k] == s[k + 1];
      KeepSymbolsAgrees(s[1..]);
    }
  }

  /** `parse_command` with the corrected clean-up. */
  function RewriteFixed(command: Option<string>): string {
    match command
    case None => ""
    case Some(c) => Normalize(CloseSqrt(KeepSymbols(Translate(Lower(c)))))
  }
}
