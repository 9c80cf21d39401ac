/**
 * The JavaScript string built-ins the core relies on: `split` with a
 * one-character separator, `trim`, `includes`, and the ASCII part of
 * `toLowerCase`/`toUpperCase`. Each is a function here, with lemmas that
 * pin down what it does.
 */
module Text {

  /** ECMAScript WhiteSpace and LineTerminator code points: the characters
      `String.prototype.trim` removes. */
  const WhitespaceChars: set<char> := {
    '\t', '\n', '\U{000B}', '\U{000C}', '\r', ' ', '\U{00A0}', '\U{1680}',
    '\U{2028}', '\U{2029}', '\U{202F}', '\U{205F}', '\U{3000}', '\U{FEFF}'
  }

  predicate IsWhitespace(c: char) {
    c in WhitespaceChars || '\U{2000}' <= c <= '\U{200A}'
  }

  predicate AllWhitespace(s: string) {
    forall i :: 0 <= i < |s| ==> IsWhitespace(s[i])
  }

  /** The number of white-space characters `s` starts with. */
  function LeadingWhitespace(s: string): (n: nat)
    ensures n <= |s|
    ensures forall i :: 0 <= i < n ==> IsWhitespace(s[i])
    ensures n < |s| ==> !IsWhitespace(s[n])
  {
    if s != [] && IsWhitespace(s[0]) then 1 + LeadingWhitespace(s[1..]) else 0
  }

  /** The number of white-space characters `s` ends with. */
  function TrailingWhitespace(s: string): (n: nat)
    ensures n <= |s|
    ensures forall i :: |s| - n <= i < |s| ==> IsWhitespace(s[i])
    ensures n < |s| ==> !IsWhitespace(s[|s| - n - 1])
  {
    if s != [] && IsWhitespace(s[|s| - 1]) then 1 + TrailingWhitespace(s[..|s| - 1]) else 0
  }

  /** `String.prototype.trim`: white space is removed at both ends, the
      result neither starts nor ends with white space, and it is empty
      exactly when `s` is white space only. */
  function Trim(s: string): (r: string)
    ensures |r| <= |s|
    ensures r != [] ==> !IsWhitespace(r[0]) && !IsWhitespace(r[|r| - 1])
    ensures r == [] <==> AllWhitespace(s)
  {
    var k := LeadingWhitespace(s);
    if k == |s| then [] else s[k..|s| - TrailingWhitespace(s)]
  }

  /** Trimming removes white space at the two ends and nothing else: the
      result is the slice of `s` between a white-space prefix and a
      white-space suffix. */
  lemma TrimIsSlice(s: string)
    ensures var k := LeadingWhitespace(s); var r := Trim(s);
      && k + |r| <= |s| && s[k..k + |r|] == r
      && AllWhitespace(s[..k]) && AllWhitespace(s[k + |r|..])
  {
    var k := LeadingWhitespace(s);
    WhitespaceSlice(s, 0, k);
    if k < |s| {
      var n := TrailingWhitespace(s);
      assert n < |s| - k;
      assert k + |Trim(s)| == |s| - n;
      WhitespaceSlice(s, |s| - n, |s|);
    }
  }

  /** A stretch of white-space characters is a white-space slice. */
  lemma WhitespaceSlice(s: string, lo: nat, hi: nat)
    requires lo <= hi <= |s|
    requires forall i :: lo <= i < hi ==> IsWhitespace(s[i])
    ensures AllWhitespace(s[lo..hi])
  {
  }

  /** Neither end is white space. */
  predicate Trimmed(t: string) {
    t != [] ==> !IsWhitespace(t[0]) && !IsWhitespace(t[|t| - 1])
  }

  /** A text is its own trim exactly when neither end is white space. */
  lemma TrimmedIff(t: string)
    ensures Trim(t) == t <==> Trimmed(t)
  {
    if Trimmed(t) && t != [] {
      assert LeadingWhitespace(t) == 0;
      assert TrailingWhitespace(t) == 0;
    }
  }

  /** Trimming twice is the same as trimming once. */
  lemma TrimIdempotent(s: string)
    ensures Trim(Trim(s)) == Trim(s)
  {
    TrimmedIff(Trim(s));
  }

  /** Number of occurrences of `c` in `s`. */
  function Occurrences(s: string, c: char): nat {
    if s == [] then 0 else Occurrences(s[..|s| - 1], c) + (if s[|s| - 1] == c then 1 else 0)
  }

  /** `String.prototype.split` with a one-character separator: the pieces
      between separators, in order, empty pieces included; never an empty
      list, since splitting "" gives [""]. */
  function Split(s: string, sep: char): (parts: seq<string>)
    ensures |parts| == Occurrences(s, sep) + 1
  {
    if s == [] then [""]
    else
      var init := Split(s[..|s| - 1], sep);
      if s[|s| - 1] == sep then init + [""]
      else init[..|init| - 1] + [init[|init| - 1] + [s[|s| - 1]]]
  }

  /** No piece contains the separator. */
  lemma {:induction false} SplitPiecesFree(s: string, sep: char)
    ensures forall i :: 0 <= i < |Split(s, sep)| ==> sep !in Split(s, sep)[i]
  {
    if s != [] {
      var init, c := s[..|s| - 1], s[|s| - 1];
      SplitPiecesFree(init, sep);
      assert init + [c] == s;
      if c == sep {
        SplitSnocSeparator(init, sep);
      } else {
        SplitSnocOther(init, c, sep);
      }
    }
  }

  /** `Array.prototype.join` over a non-empty list of pieces. */
  function Join(parts: seq<string>, sep: char): string
    requires |parts| >= 1
  {
    if |parts| == 1 then parts[0] else Join(parts[..|parts| - 1], sep) + [sep] + parts[|parts| - 1]
  }

  /** Joining one more piece adds the separator and that piece. */
  lemma JoinSnoc(parts: seq<string>, e: string, sep: char)
    requires |parts| >= 1
    ensures Join(parts + [e], sep) == Join(parts, sep) + [sep] + e
  {
    assert (parts + [e])[..|parts|] == parts;
  }

  /** Extending the last piece extends the joined text. */
  lemma JoinExtendLast(parts: seq<string>, c: char, sep: char)
    requires |parts| >= 1
    ensures Join(parts[..|parts| - 1] + [parts[|parts| - 1] + [c]], sep) == Join(parts, sep) + [c]
  {
    var init, last := parts[..|parts| - 1], parts[|parts| - 1];
    if |parts| > 1 {
      JoinSnoc(init, last + [c], sep);
      JoinSnoc(init, last, sep);
      assert init + [last] == parts;
      assert Join(init, sep) + [sep] + (last + [c]) == (Join(init, sep) + [sep] + last) + [c];
    }
  }

  /** Splitting loses nothing: joining the pieces back gives the input. */
  lemma {:induction false} JoinSplit(s: string, sep: char)
    ensures Join(Split(s, sep), sep) == s
  {
    if s != [] {
      var init, c := s[..|s| - 1], s[|s| - 1];
      var p := Split(init, sep);
      JoinSplit(init, sep);
      assert init + [c] == s;
      if c == sep {
        SplitSnocSeparator(init, sep);
        JoinSnoc(p, "", sep);
        assert Join(p, sep) + [sep] + "" == init + [c];
      } else {
        SplitSnocOther(init, c, sep);
        JoinExtendLast(p, c, sep);
      }
    }
  }

  /** A piece without the separator splits to itself. */
  lemma {:induction false} SplitNoSeparator(s: string, sep: char)
    requires sep !in s
    ensures Split(s, sep) == [s]
  {
    if s != [] {
      assert sep !in s[..|s| - 1];
      SplitNoSeparator(s[..|s| - 1], sep);
      assert s[..|s| - 1] + [s[|s| - 1]] == s;
    }
  }

  /** One step of `SplitAround`: appending a character to the right-hand
      side keeps the split a concatenation. */
  lemma SplitAroundStep(a: string, b: string, c: char, sep: char)
    requires Split(a + [sep] + b, sep) == Split(a, sep) + Split(b, sep)
    ensures Split(a + [sep] + b + [c], sep) == Split(a, sep) + Split(b + [c], sep)
  {
    var s := a + [sep] + b;
    var pa, pb := Split(a, sep), Split(b, sep);
    if c == sep {
      SplitSnocSeparator(s, sep);
      SplitSnocSeparator(b, sep);
      assert (pa + pb) + [""] == pa + (pb + [""]);
    } else {
      SplitSnocOther(s, c, sep);
      SplitSnocOther(b, c, sep);
      ExtendLastPiece(pa, pb, c);
    }
  }

  /** Appending the separator starts a new, empty piece. */
  lemma SplitSnocSeparator(s: string, sep: char)
    ensures Split(s + [sep], sep) == Split(s, sep) + [""]
  {
    assert (s + [sep])[..|s|] == s;
  }

  /** Appending another character extends the last piece. */
  lemma SplitSnocOther(s: string, c: char, sep: char)
    requires c != sep
    ensures var p := Split(s, sep); Split(s + [c], sep) == p[..|p| - 1] + [p[|p| - 1] + [c]]
  {
    assert (s + [c])[..|s|] == s;
  }

  /** Extending the last piece of `x + y` extends the last piece of `y`. */
  lemma ExtendLastPiece(x: seq<string>, y: seq<string>, c: char)
    requires |y| >= 1
    ensures var p := x + y;
      p[..|p| - 1] + [p[|p| - 1] + [c]] == x + (y[..|y| - 1] + [y[|y| - 1] + [c]])
  {
    var p := x + y;
    assert p[..|p| - 1] == x + y[..|y| - 1];
    assert p[|p| - 1] == y[|y| - 1];
  }

  /** Splitting distributes over a separator: what lies on either side of
      it is split independently. */
  lemma {:induction false} SplitAround(a: string, b: string, sep: char)
    ensures Split(a + [sep] + b, sep) == Split(a, sep) + Split(b, sep)
    decreases |b|
  {
    if b == [] {
      SplitSnocSeparator(a, sep);
      assert a + [sep] + b == a + [sep];
    } else {
      var b', c := b[..|b| - 1], b[|b| - 1];
      assert a + [sep] + b == a + [sep] + b' + [c];
      assert b == b' + [c];
      SplitAround(a, b', sep);
      SplitAroundStep(a, b', c, sep);
    }
  }

  /** Splitting undoes joining, for pieces free of the separator. */
  lemma {:induction false} SplitJoin(parts: seq<string>, sep: char)
    requires |parts| >= 1
    requires forall i :: 0 <= i < |parts| ==> sep !in parts[i]
    ensures Split(Join(parts, sep), sep) == parts
  {
    var last := parts[|parts| - 1];
    if |parts| == 1 {
      SplitNoSeparator(last, sep);
    } else {
      var init := parts[..|parts| - 1];
      assert forall i :: 0 <= i < |init| ==> init[i] == parts[i];
      SplitJoin(init, sep);
      SplitJoinStep(init, last, sep);
      assert init + [last] == parts;
    }
  }

  /** Joining one more separator-free piece keeps the split exact. */
  lemma SplitJoinStep(init: seq<string>, last: string, sep: char)
    requires |init| >= 1 && sep !in last
    requires Split(Join(init, sep), sep) == init
    ensures Split(Join(init + [last], sep), sep) == init + [last]
  {
    JoinSnoc(init, last, sep);
    SplitAround(Join(init, sep), last, sep);
    SplitNoSeparator(last, sep);
  }

  /** ASCII case mapping, the part of `toLowerCase` the model needs. */
  function LowerChar(c: char): char {
    if 'A' <= c <= 'Z' then (c as int + 32) as char else c
  }

  function UpperChar(c: char): char {
    if 'a' <= c <= 'z' then (c as int - 32) as char else c
  }

  /** `toLowerCase`, restricted to ASCII letters. */
  function ToLower(s: string): (r: string)
    ensures |r| == |s|
    ensures forall i :: 0 <= i < |s| ==> r[i] == LowerChar(s[i])
  {
    if s == [] then [] else [LowerChar(s[0])] + ToLower(s[1..])
  }

  /** `charAt(0).toUpperCase() + slice(1)`. */
  function Capitalize(s: string): (r: string)
    ensures |r| == |s|
    ensures s != [] ==> r[0] == UpperChar(s[0]) && r[1..] == s[1..]
  {
    if s == [] then [] else [UpperChar(s[0])] + s[1..]
  }

  /** `sub` occurs in `s` starting at index `i`. */
  predicate OccursAt(s: string, sub: string, i: int) {
    0 <= i <= |s| - |sub| && s[i..i + |sub|] == sub
  }

  /** `String.prototype.includes`: `sub` occurs in `s` at some position. */
  function Includes(s: string, sub: string): (b: bool)
    ensures b <==> exists i :: OccursAt(s, sub, i)
    decreases |s|
  {
    if |sub| > |s| then false
    else if s[..|sub|] == sub then assert OccursAt(s, sub, 0); true
    else
      var b := Includes(s[1..], sub);
      assert b ==> exists i :: OccursAt(s, sub, i) by {
        if b {
          var j :| OccursAt(s[1..], sub, j);
          assert s[1..][j..j + |sub|] == s[j + 1..j + 1 + |sub|];
          assert OccursAt(s, sub, j + 1);
        }
      }
      assert (exists i :: OccursAt(s, sub, i)) ==> b by {
        if i :| OccursAt(s, sub, i) {
          assert i != 0;
          assert s[1..][i - 1..i - 1 + |sub|] == s[i..i + |sub|];
          assert OccursAt(s[1..], sub, i - 1);
        }
      }
      b
  }
}
