/** The JavaScript string operations the application relies on, over `string`. A Dafny
    `char` is a Unicode scalar value, so lengths and slices count code points where
    JavaScript counts UTF-16 code units; the two agree on text without characters outside
    the Basic Multilingual Plane. */
module Text {

  // ---------------------------------------------------------------------------
  // White space, trim and `replace(/\s+/g, '')`
  // ---------------------------------------------------------------------------

  /** White space and line terminators as ECMAScript defines them (sections 12.2 and 12.3 of
      ECMA-262): exactly the characters `\s` matches and `String.prototype.trim` removes. */
  predicate IsSpace(c: char) {
    || c == ' ' || c == '\t' || c == '\n' || c == '\r' || c == '\U{000B}' || c == '\U{000C}'
    || c == '\U{00A0}' || c == '\U{1680}' || ('\U{2000}' <= c <= '\U{200A}')
    || c == '\U{2028}' || c == '\U{2029}' || c == '\U{202F}' || c == '\U{205F}'
    || c == '\U{3000}' || c == '\U{FEFF}'
  }

  /** Every character of `s` is white space (true of the empty string). */
  predicate AllSpace(s: string) {
    forall i :: 0 <= i < |s| ==> IsSpace(s[i])
  }

  /** `s` with its leading white space removed. */
  function TrimStart(s: string): string {
    if |s| > 0 && IsSpace(s[0]) then TrimStart(s[1..]) else s
  }

  /** `s` with its trailing white space removed. */
  function TrimEnd(s: string): string {
    if |s| > 0 && IsSpace(s[|s| - 1]) then TrimEnd(s[..|s| - 1]) else s
  }

  /** `String.prototype.trim`. Its properties are stated by `TrimSpec`, so that the many
      places that merely mention a trimmed string do not pay for them. */
  function Trim(s: string): string {
    TrimEnd(TrimStart(s))
  }

  /** Trimming the start drops a prefix made of white space and stops at the first
      character that is not. */
  lemma {:induction false} TrimStartSpec(s: string)
    ensures |TrimStart(s)| <= |s| && TrimStart(s) == s[|s| - |TrimStart(s)|..]
    ensures AllSpace(s[..|s| - |TrimStart(s)|])
    ensures TrimStart(s) == [] || !IsSpace(TrimStart(s)[0])
  {
    if |s| > 0 && IsSpace(s[0]) {
      TrimStartSpec(s[1..]);
      var k := |s| - |TrimStart(s)|;
      assert s[1..][..k - 1] == s[1..k];
      assert forall i | 1 <= i < k :: s[i] == s[1..k][i - 1];
    }
  }

  /** Trimming the end drops a suffix made of white space and stops at the last character
      that is not. */
  lemma {:induction false} TrimEndSpec(s: string)
    ensures |TrimEnd(s)| <= |s| && TrimEnd(s) == s[..|TrimEnd(s)|]
    ensures AllSpace(s[|TrimEnd(s)|..])
    ensures TrimEnd(s) == [] || !IsSpace(TrimEnd(s)[|TrimEnd(s)| - 1])
  {
    if |s| > 0 && IsSpace(s[|s| - 1]) {
      var t := s[..|s| - 1];
      TrimEndSpec(t);
      var k := |TrimEnd(s)|;
      assert t[k..] == s[k..|s| - 1];
      assert forall i | k <= i < |s| - 1 :: s[i] == t[k..][i - k];
    }
  }

  /** `trim` cuts `s` into white space, the result, and white space: the result is a
      contiguous slice of `s` that neither starts nor ends with white space, and it is
      empty exactly when `s` is all white space. */
  lemma TrimSpec(s: string)
    ensures var r := Trim(s);
      exists i, j :: 0 <= i <= j <= |s| && r == s[i..j] && AllSpace(s[..i]) && AllSpace(s[j..])
    ensures Trim(s) == [] || (!IsSpace(Trim(s)[0]) && !IsSpace(Trim(s)[|Trim(s)| - 1]))
    ensures Trim(s) == [] <==> AllSpace(s)
  {
    var t := TrimStart(s);
    var r := Trim(s);
    TrimStartSpec(s);
    TrimEndSpec(t);
    var i := |s| - |t|;
    var j := i + |r|;
    assert r == s[i..j];
    assert t[|r|..] == s[j..];
    assert r != [] ==> r[0] == t[0];
    if r == [] {
      assert t == [] && s[..i] == s;
    } else {
      assert !IsSpace(s[i]);
    }
  }

  /** Trimming a string that neither starts nor ends with white space changes nothing. */
  lemma TrimNoOp(s: string)
    requires s == [] || (!IsSpace(s[0]) && !IsSpace(s[|s| - 1]))
    ensures Trim(s) == s
  {
  }

  /** Trimming twice is the same as trimming once. */
  lemma TrimIdempotent(s: string)
    ensures Trim(Trim(s)) == Trim(s)
  {
    TrimSpec(s);
    TrimNoOp(Trim(s));
  }

  /** `s.replace(/\s+/g, '')`: every white-space character removed, the others kept in order. */
  function RemoveSpaces(s: string): (r: string)
    ensures |r| <= |s|
    ensures forall i :: 0 <= i < |r| ==> !IsSpace(r[i])
    ensures forall i :: 0 <= i < |s| && !IsSpace(s[i]) ==> s[i] in r
    ensures r == [] <==> AllSpace(s)
  {
    if s == [] then []
    else if IsSpace(s[0]) then RemoveSpaces(s[1..])
    else [s[0]] + RemoveSpaces(s[1..])
  }

  /** A string that holds no white space is left as it is. */
  lemma {:induction false} RemoveSpacesNoOp(s: string)
    requires forall i :: 0 <= i < |s| ==> !IsSpace(s[i])
    ensures RemoveSpaces(s) == s
  {
    if s != [] {
      RemoveSpacesNoOp(s[1..]);
    }
  }

  /** Removal works piecewise, so the kept characters stay in their order. */
  lemma {:induction false} RemoveSpacesConcat(a: string, b: string)
    ensures RemoveSpaces(a + b) == RemoveSpaces(a) + RemoveSpaces(b)
  {
    if a != [] {
      assert (a + b)[0] == a[0] && (a + b)[1..] == a[1..] + b;
      RemoveSpacesConcat(a[1..], b);
    } else {
      assert a + b == b;
    }
  }

  // ---------------------------------------------------------------------------
  // Upper case
  // ---------------------------------------------------------------------------

  /** `toUpperCase` on one character, for the characters whose upper case is a single
      character of `A`-`Z`: the ASCII letters and U+017F (LATIN SMALL LETTER LONG S, whose
      upper case is `S`). Every other character is left as it is. */
  function UpperChar(c: char): char {
    if 'a' <= c <= 'z' then (c as int - 32) as char
    else if c == '\U{017F}' then 'S'
    else c
  }

  /** `String.prototype.toUpperCase`, character by character. */
  function ToUpper(s: string): (r: string)
    ensures |r| == |s|
    ensures forall i :: 0 <= i < |s| ==> r[i] == UpperChar(s[i])
  {
    if s == [] then [] else [UpperChar(s[0])] + ToUpper(s[1..])
  }

  /** The characters whose upper case is the capital letter `u`. */
  lemma UpperCharIs(c: char, u: char)
    requires 'A' <= u <= 'Z'
    ensures UpperChar(c) == u <==> c == u || c as int == u as int + 32 || (u == 'S' && c == '\U{017F}')
  {
  }

  /** The strings whose upper case is exactly `YES`. */
  lemma UpperIsYes(s: string)
    ensures ToUpper(s) == "YES" <==>
      && |s| == 3
      && (s[0] == 'y' || s[0] == 'Y')
      && (s[1] == 'e' || s[1] == 'E')
      && (s[2] == 's' || s[2] == 'S' || s[2] == '\U{017F}')
  {
    var r := ToUpper(s);
    if |s| == 3 {
      UpperCharIs(s[0], 'Y');
      UpperCharIs(s[1], 'E');
      UpperCharIs(s[2], 'S');
      assert r == "YES" <==> r[0] == 'Y' && r[1] == 'E' && r[2] == 'S';
    }
  }

  /** `s.charAt(0).toUpperCase() + s.slice(1)`. */
  function Capitalize(s: string): (r: string)
    ensures |r| == |s|
    ensures |s| > 0 ==> r[0] == UpperChar(s[0]) && r[1..] == s[1..]
  {
    if s == [] then [] else [UpperChar(s[0])] + s[1..]
  }

  // ---------------------------------------------------------------------------
  // Prefixes, `startsWith`, `includes`
  // ---------------------------------------------------------------------------

  /** `s.slice(0, n)` / `s.substring(0, n)` for `n >= 0`. */
  function Take(s: string, n: nat): (r: string)
    ensures |r| == if n < |s| then n else |s|
    ensures r == s[..|r|]
  {
    if n < |s| then s[..n] else s
  }

  /** `s.startsWith(p)`. */
  predicate StartsWith(s: string, p: string) {
    |p| <= |s| && s[..|p|] == p
  }

  /** `sub` occurs in `s` starting at index `i`. */
  predicate OccursAt(s: string, sub: string, i: int) {
    0 <= i && i + |sub| <= |s| && s[i..i + |sub|] == sub
  }

  /** `s.includes(sub)`. */
  predicate Contains(s: string, sub: string) {
    exists i | 0 <= i <= |s| :: OccursAt(s, sub, i)
  }

  /** Character-by-character comparison of `sub[j..]` with `s[i + j..]`: the form of the test
      the verifier can evaluate on string literals. */
  predicate MatchesAt(s: string, sub: string, i: nat, j: nat)
    decreases |sub| - j
  {
    i + |sub| <= |s| && (j >= |sub| || (s[i + j] == sub[j] && MatchesAt(s, sub, i, j + 1)))
  }

  /** Search for `sub` in `s` at every index from `i` on. */
  predicate ScanFrom(s: string, sub: string, i: nat)
    decreases |s| - i
  {
    i + |sub| <= |s| && (MatchesAt(s, sub, i, 0) || ScanFrom(s, sub, i + 1))
  }

  lemma {:induction false} MatchesAtSpec(s: string, sub: string, i: nat, j: nat)
    requires j <= |sub|
    ensures MatchesAt(s, sub, i, j) <==> i + |sub| <= |s| && s[i + j..i + |sub|] == sub[j..]
    decreases |sub| - j
  {
    if j < |sub| && i + |sub| <= |s| {
      MatchesAtSpec(s, sub, i, j + 1);
      assert s[i + j..i + |sub|] == [s[i + j]] + s[i + j + 1..i + |sub|];
      assert sub[j..] == [sub[j]] + sub[j + 1..];
    }
  }

  lemma {:induction false} ScanFromSpec(s: string, sub: string, i: nat)
    ensures ScanFrom(s, sub, i) <==> exists k | i <= k <= |s| :: OccursAt(s, sub, k)
    decreases |s| - i
  {
    MatchesAtSpec(s, sub, i, 0);
    assert sub[0..] == sub;
    if i + |sub| <= |s| {
      ScanFromSpec(s, sub, i + 1);
      if ScanFrom(s, sub, i) {
        if MatchesAt(s, sub, i, 0) {
          assert OccursAt(s, sub, i);
        } else {
          var k :| i + 1 <= k <= |s| && OccursAt(s, sub, k);
        }
      }
      if exists k | i <= k <= |s| :: OccursAt(s, sub, k) {
        var k :| i <= k <= |s| && OccursAt(s, sub, k);
        if k > i {
          assert ScanFrom(s, sub, i + 1);
        }
      }
    }
  }

  /** The scan decides `includes`. */
  lemma ScanDecides(s: string, sub: string)
    ensures ScanFrom(s, sub, 0) <==> Contains(s, sub)
  {
    ScanFromSpec(s, sub, 0);
  }

  /** A string starts with each of its prefixes and contains them. */
  lemma StartsWithContains(s: string, p: string)
    requires StartsWith(s, p)
    ensures Contains(s, p)
  {
    assert OccursAt(s, p, 0);
  }

  /** Every string contains itself. */
  lemma ContainsSelf(s: string)
    ensures Contains(s, s)
  {
    assert OccursAt(s, s, 0);
  }

  /** An occurrence in `t` is an occurrence in `a + t + b`. */
  lemma ContainsInside(a: string, t: string, b: string, p: string)
    requires Contains(t, p)
    ensures Contains(a + t + b, p)
  {
    var i :| 0 <= i <= |t| && OccursAt(t, p, i);
    var s := a + t + b;
    assert s[|a| + i..|a| + i + |p|] == t[i..i + |p|];
    assert OccursAt(s, p, |a| + i);
  }

  /** `includes` is transitive. */
  lemma ContainsTransitive(s: string, t: string, p: string)
    requires Contains(s, t) && Contains(t, p)
    ensures Contains(s, p)
  {
    var i :| 0 <= i <= |s| && OccursAt(s, t, i);
    assert s == s[..i] + t + s[i + |t|..];
    ContainsInside(s[..i], t, s[i + |t|..], p);
  }

  /** A string that contains `a + b` contains `b`. */
  lemma ContainsSuffix(s: string, a: string, b: string)
    requires Contains(s, a + b)
    ensures Contains(s, b)
  {
    assert OccursAt(a + b, b, |a|);
    ContainsTransitive(s, a + b, b);
  }

  /** A string too short for the pattern, or missing one of its characters, does not
      contain it. */
  lemma CannotContain(s: string, p: string, c: char)
    requires |s| < |p| || (c in p && c !in s)
    ensures !Contains(s, p)
  {
    if |s| >= |p| {
      var j :| 0 <= j < |p| && p[j] == c;
      forall i | 0 <= i <= |s| ensures !OccursAt(s, p, i) {
        if i + |p| <= |s| {
          assert s[i..i + |p|][j] == s[i + j];
        }
      }
    }
  }

  // ---------------------------------------------------------------------------
  // Joining words
  // ---------------------------------------------------------------------------

  /** `ws.join(c)`. */
  function Join(ws: seq<string>, c: char): string
  {
    if |ws| == 0 then "" else if |ws| == 1 then ws[0] else ws[0] + [c] + Join(ws[1..], c)
  }

  /** `ws.join(' ')`: how the fixed messages of the application are spelt in this model. */
  function Sentence(ws: seq<string>): string {
    Join(ws, ' ')
  }

  /** Every word of a join occurs in it. */
  lemma {:induction false} JoinContainsWord(ws: seq<string>, c: char, k: int)
    requires 0 <= k < |ws|
    ensures Contains(Join(ws, c), ws[k])
  {
    if |ws| == 1 {
      ContainsSelf(ws[0]);
    } else if k == 0 {
      ContainsSelf(ws[0]);
      ContainsInside("", ws[0], [c] + Join(ws[1..], c), ws[0]);
      assert "" + ws[0] + ([c] + Join(ws[1..], c)) == Join(ws, c);
    } else {
      JoinContainsWord(ws[1..], c, k - 1);
      ContainsInside(ws[0] + [c], Join(ws[1..], c), "", ws[k]);
      assert ws[0] + [c] + Join(ws[1..], c) + "" == Join(ws, c);
    }
  }

  /** Two neighbouring words, with the separator between them, occur in a join. */
  lemma {:induction false} JoinContainsNeighbours(ws: seq<string>, c: char, k: int)
    requires 0 <= k < |ws| - 1
    ensures Contains(Join(ws, c), ws[k] + [c] + ws[k + 1])
  {
    var pair := ws[k] + [c] + ws[k + 1];
    if k == 0 {
      var rest := Join(ws[1..], c);
      if |ws| == 2 {
        assert Join(ws, c) == pair;
        ContainsSelf(pair);
      } else {
        assert rest == ws[1] + [c] + Join(ws[2..], c);
        assert Join(ws, c) == pair + ([c] + Join(ws[2..], c));
        ContainsSelf(pair);
        ContainsInside("", pair, [c] + Join(ws[2..], c), pair);
        assert "" + pair + ([c] + Join(ws[2..], c)) == Join(ws, c);
      }
    } else {
      JoinContainsNeighbours(ws[1..], c, k - 1);
      ContainsInside(ws[0] + [c], Join(ws[1..], c), "", pair);
      assert ws[0] + [c] + Join(ws[1..], c) + "" == Join(ws, c);
    }
  }

  /** An occurrence that starts inside the first word and ends after it covers the
      separator. */
  lemma StraddleMeetsSeparator(s: string, w: string, rest: string, c: char, p: string, i: int)
    requires s == w + [c] + rest
    requires OccursAt(s, p, i)
    requires i <= |w| < i + |p|
    ensures c in p
  {
    assert s[|w|] == c;
    assert p[|w| - i] == s[i..i + |p|][|w| - i];
  }

  /** A pattern free of the separator can only occur inside one of the joined words. */
  lemma {:induction false} OccurrenceInsideWord(ws: seq<string>, c: char, p: string)
    requires c !in p && |p| > 0
    requires Contains(Join(ws, c), p)
    ensures exists k :: 0 <= k < |ws| && Contains(ws[k], p)
  {
    var s := Join(ws, c);
    var i :| 0 <= i <= |s| && OccursAt(s, p, i);
    if |ws| == 0 {
      assert false;
    } else if |ws| == 1 {
      assert Contains(ws[0], p);
    } else {
      var w := ws[0];
      var rest := Join(ws[1..], c);
      assert s == w + [c] + rest;
      if i + |p| <= |w| {
        assert s[i..i + |p|] == w[i..i + |p|];
        assert OccursAt(w, p, i);
        assert Contains(ws[0], p);
      } else if i > |w| {
        assert s[i..i + |p|] == rest[i - |w| - 1..i - |w| - 1 + |p|];
        assert OccursAt(rest, p, i - |w| - 1);
        OccurrenceInsideWord(ws[1..], c, p);
        var k :| 0 <= k < |ws[1..]| && Contains(ws[1..][k], p);
        assert ws[k + 1] == ws[1..][k];
      } else {
        StraddleMeetsSeparator(s, w, rest, c, p, i);
        assert false;
      }
    }
  }

  /** If no word contains a separator-free pattern, neither does their join. */
  lemma NoWordContains(ws: seq<string>, c: char, p: string)
    requires c !in p && |p| > 0
    requires forall k :: 0 <= k < |ws| ==> !Contains(ws[k], p)
    ensures !Contains(Join(ws, c), p)
  {
    if Contains(Join(ws, c), p) {
      OccurrenceInsideWord(ws, c, p);
    }
  }

  /** `NoWordContains` for words the verifier can scan directly. */
  lemma NoWordScans(ws: seq<string>, c: char, p: string)
    requires c !in p && |p| > 0
    requires forall k :: 0 <= k < |ws| ==> !ScanFrom(ws[k], p, 0)
    ensures !Contains(Join(ws, c), p)
  {
    forall k | 0 <= k < |ws| ensures !Contains(ws[k], p) {
      ScanDecides(ws[k], p);
    }
    NoWordContains(ws, c, p);
  }

  // ---------------------------------------------------------------------------
  // `split('\n').filter(Boolean)`
  // ---------------------------------------------------------------------------

  /** `s.split('\n')`: the pieces between line feeds, always at least one. */
  function SplitLines(s: string): (r: seq<string>)
    ensures |r| >= 1
    ensures forall k :: 0 <= k < |r| ==> '\n' !in r[k]
  {
    if s == [] then [""]
    else
      var rest := SplitLines(s[1..]);
      if s[0] == '\n' then [""] + rest else [[s[0]] + rest[0]] + rest[1..]
  }

  /** Joining the pieces of a split with line feeds gives back the original string. */
  lemma {:induction false} JoinSplitLines(s: string)
    ensures Join(SplitLines(s), '\n') == s
  {
    if s != [] {
      var rest := SplitLines(s[1..]);
      JoinSplitLines(s[1..]);
      if |rest| == 1 {
        assert Join(rest, '\n') == rest[0];
      } else {
        assert Join(rest, '\n') == rest[0] + "\n" + Join(rest[1..], '\n');
      }
      var r := SplitLines(s);
      if s[0] == '\n' {
        assert r[1..] == rest;
        assert Join(r, '\n') == "" + "\n" + Join(rest, '\n');
      } else {
        assert r[1..] == rest[1..];
        if |rest| > 1 {
          assert Join(r, '\n') == ([s[0]] + rest[0]) + "\n" + Join(rest[1..], '\n');
        }
      }
      assert s == [s[0]] + s[1..];
    }
  }

  /** Splitting `a + t` where `a` holds no line feed extends the first piece of `t`'s split. */
  lemma {:induction false} SplitLinesPrefix(a: string, t: string)
    requires '\n' !in a
    ensures SplitLines(a + t) == [a + SplitLines(t)[0]] + SplitLines(t)[1..]
  {
    if a != [] {
      SplitLinesPrefix(a[1..], t);
      assert (a + t)[1..] == a[1..] + t;
      assert [a[0]] + (a[1..] + SplitLines(t)[0]) == a + SplitLines(t)[0];
    } else {
      var r := SplitLines(t);
      assert a + t == t && a + r[0] == r[0];
      assert [r[0]] + r[1..] == r;
    }
  }

  /** Splitting line-feed-free pieces joined by line feeds gives back the pieces. */
  lemma {:induction false} SplitJoinLines(xs: seq<string>)
    requires |xs| >= 1
    requires forall k :: 0 <= k < |xs| ==> '\n' !in xs[k]
    ensures SplitLines(Join(xs, '\n')) == xs
  {
    if |xs| == 1 {
      SplitLinesPrefix(xs[0], "");
      assert xs[0] + "" == xs[0];
    } else {
      SplitJoinLines(xs[1..]);
      var t := "\n" + Join(xs[1..], '\n');
      assert Join(xs, '\n') == xs[0] + t;
      SplitLinesPrefix(xs[0], t);
      assert t[1..] == Join(xs[1..], '\n');
      assert SplitLines(t) == [""] + xs[1..];
      assert xs[0] + "" == xs[0];
      assert [xs[0]] + xs[1..] == xs;
    }
  }

  /** All the pieces, concatenated. */
  function Concat(xs: seq<string>): string {
    if xs == [] then "" else xs[0] + Concat(xs[1..])
  }

  /** `s` with every occurrence of `c` removed. */
  function RemoveChar(s: string, c: char): (r: string)
    ensures c !in r
    ensures |r| <= |s|
  {
    if s == [] then "" else if s[0] == c then RemoveChar(s[1..], c) else [s[0]] + RemoveChar(s[1..], c)
  }

  /** `xs.filter(Boolean)` on strings: the non-empty pieces, in their original order. */
  function DropEmpty(xs: seq<string>): (r: seq<string>)
    ensures |r| <= |xs|
    ensures forall k :: 0 <= k < |r| ==> r[k] != ""
    ensures forall k :: 0 <= k < |r| ==> r[k] in xs
    ensures Concat(r) == Concat(xs)
  {
    if xs == [] then []
    else if xs[0] == "" then DropEmpty(xs[1..])
    else [xs[0]] + DropEmpty(xs[1..])
  }

  /** One piece is kept exactly when it is non-empty. */
  lemma DropEmptySingle(x: string)
    ensures DropEmpty([x]) == if x == "" then [] else [x]
  {
    assert [x][1..] == [];
  }

  /** Filtering distributes over concatenation: together with `DropEmptySingle` this fixes
      which pieces are kept and that they stay in order. */
  lemma {:induction false} DropEmptyConcat(a: seq<string>, b: seq<string>)
    ensures DropEmpty(a + b) == DropEmpty(a) + DropEmpty(b)
    decreases |a|
  {
    if a == [] {
      assert a + b == b;
    } else {
      assert (a + b)[1..] == a[1..] + b;
      DropEmptyConcat(a[1..], b);
    }
  }

  /** Filtering pieces that are all non-empty keeps every one of them. */
  lemma {:induction false} DropEmptyKeepsNonEmpty(xs: seq<string>)
    requires forall k :: 0 <= k < |xs| ==> xs[k] != ""
    ensures DropEmpty(xs) == xs
  {
    if xs != [] {
      DropEmptyKeepsNonEmpty(xs[1..]);
    }
  }

  /** The pieces of a split, concatenated, are the string without its line feeds. */
  lemma {:induction false} ConcatSplitLines(s: string)
    ensures Concat(SplitLines(s)) == RemoveChar(s, '\n')
  {
    if s != [] {
      ConcatSplitLines(s[1..]);
      var rest := SplitLines(s[1..]);
      assert Concat(rest) == rest[0] + Concat(rest[1..]);
      if s[0] == '\n' {
        assert ([""] + rest)[1..] == rest;
      } else {
        var r := SplitLines(s);
        assert r[1..] == rest[1..];
      }
    }
  }

  /** `s.split('\n').filter(Boolean)`: the non-empty lines of `s`. */
  function NonEmptyLines(s: string): (r: seq<string>)
    ensures forall k :: 0 <= k < |r| ==> r[k] != "" && '\n' !in r[k]
    ensures Concat(r) == RemoveChar(s, '\n')
  {
    ConcatSplitLines(s);
    DropEmpty(SplitLines(s))
  }

  /** The non-empty lines of line-feed-free pieces joined by line feeds are the non-empty
      pieces, in order. Every string is such a join (`JoinSplitLines`), so this fixes the
      result for every input. */
  lemma NonEmptyLinesOfJoin(xs: seq<string>)
    requires |xs| >= 1
    requires forall k :: 0 <= k < |xs| ==> '\n' !in xs[k]
    ensures NonEmptyLines(Join(xs, '\n')) == DropEmpty(xs)
  {
    SplitJoinLines(xs);
  }

  /** The non-empty lines of a string are the non-empty pieces of its split. */
  lemma NonEmptyLinesOfSplit(s: string)
    ensures NonEmptyLines(s) == DropEmpty(SplitLines(s))
    ensures forall x :: x in NonEmptyLines(s) <==> x in SplitLines(s) && x != ""
  {
    DropEmptyMembers(SplitLines(s));
  }

  /** A piece survives the filter exactly when it is a non-empty piece of the input. */
  lemma {:induction false} DropEmptyMembers(xs: seq<string>)
    ensures forall x :: x in DropEmpty(xs) <==> x in xs && x != ""
    decreases |xs|
  {
    if xs != [] {
      DropEmptyMembers(xs[1..]);
      assert xs == [xs[0]] + xs[1..];
    }
  }

  /** Non-empty, line-feed-free lines joined with line feeds split back into the same lines. */
  lemma LinesRoundTrip(xs: seq<string>)
    requires forall k :: 0 <= k < |xs| ==> xs[k] != "" && '\n' !in xs[k]
    ensures NonEmptyLines(Join(xs, '\n')) == xs
  {
    if xs != [] {
      SplitJoinLines(xs);
      DropEmptyKeepsNonEmpty(xs);
    }
  }
}
