/**
 * String helpers shared by the JavaScript and Python parts of the model.
 *
 * Every helper works on ASCII: whitespace is the six ASCII white-space
 * characters, letters are A-Z and a-z, digits are 0-9. The source languages
 * use Unicode tables for trim/strip, lower/upper and isalnum/isdigit; the
 * model restricts those to ASCII.
 */
module Text {

  // ---------------------------------------------------------------------------
  // Characters
  // ---------------------------------------------------------------------------

  predicate IsWhitespace(c: char) {
    c == ' ' || c == '\t' || c == '\n' || c == '\r' || c == '\U{0B}' || c == '\U{0C}'
  }

  predicate IsDigit(c: char) { '0' <= c <= '9' }

  predicate IsUpperLetter(c: char) { 'A' <= c <= 'Z' }

  predicate IsLowerLetter(c: char) { 'a' <= c <= 'z' }

  /** ASCII letters and digits (Python's isalnum, JavaScript's [a-zA-Z0-9]). */
  predicate IsAlnum(c: char) { IsDigit(c) || IsUpperLetter(c) || IsLowerLetter(c) }

  function LowerChar(c: char): char {
    if IsUpperLetter(c) then (c as int + 32) as char else c
  }

  function UpperChar(c: char): char {
    if IsLowerLetter(c) then (c as int - 32) as char else c
  }

  // ---------------------------------------------------------------------------
  // Case mapping
  // ---------------------------------------------------------------------------

  function Lower(s: string): (r: string)
    ensures |r| == |s|
    ensures forall i :: 0 <= i < |s| ==> r[i] == LowerChar(s[i])
  {
    seq(|s|, i requires 0 <= i < |s| => LowerChar(s[i]))
  }

  function Upper(s: string): (r: string)
    ensures |r| == |s|
    ensures forall i :: 0 <= i < |s| ==> r[i] == UpperChar(s[i])
  {
    seq(|s|, i requires 0 <= i < |s| => UpperChar(s[i]))
  }

  /** Comparing lower-cased strings is the same as comparing upper-cased ones. */
  lemma LowerEqIffUpperEq(a: string, b: string)
    ensures Lower(a) == Lower(b) <==> Upper(a) == Upper(b)
  {
    if Lower(a) == Lower(b) {
      assert |a| == |b|;
      forall i | 0 <= i < |a| ensures Upper(a)[i] == Upper(b)[i] {
        assert LowerChar(a[i]) == LowerChar(b[i]);
      }
    }
    if Upper(a) == Upper(b) {
      assert |a| == |b|;
      forall i | 0 <= i < |a| ensures Lower(a)[i] == Lower(b)[i] {
        assert UpperChar(a[i]) == UpperChar(b[i]);
      }
    }
  }

  // ---------------------------------------------------------------------------
  // Trimming (JavaScript trim, Python strip)
  // ---------------------------------------------------------------------------

  predicate AllWhitespace(s: string) {
    forall i :: 0 <= i < |s| ==> IsWhitespace(s[i])
  }

  function TrimStart(s: string): (r: string)
    ensures |r| <= |s|
    ensures r == [] || !IsWhitespace(r[0])
    decreases |s|
  {
    if s != [] && IsWhitespace(s[0]) then TrimStart(s[1..]) else s
  }

  /** TrimStart drops a white-space prefix and keeps the rest. */
  lemma {:induction false} TrimStartDrops(s: string)
    ensures TrimStart(s) == s[|s| - |TrimStart(s)|..]
    ensures AllWhitespace(s[..|s| - |TrimStart(s)|])
    decreases |s|
  {
    if s != [] && IsWhitespace(s[0]) {
      TrimStartDrops(s[1..]);
      var k := |s| - |TrimStart(s)|;
      assert s[1..][..k - 1] == s[1..k];
      assert s[1..][k - 1..] == s[k..];
    }
  }

  function TrimEnd(s: string): (r: string)
    ensures |r| <= |s|
    ensures r == [] || !IsWhitespace(r[|r| - 1])
    decreases |s|
  {
    if s != [] && IsWhitespace(s[|s| - 1]) then TrimEnd(s[..|s| - 1]) else s
  }

  /** TrimEnd drops a white-space suffix and keeps the rest. */
  lemma {:induction false} TrimEndDrops(s: string)
    ensures TrimEnd(s) == s[..|TrimEnd(s)|]
    ensures AllWhitespace(s[|TrimEnd(s)|..])
    decreases |s|
  {
    if s != [] && IsWhitespace(s[|s| - 1]) {
      TrimEndDrops(s[..|s| - 1]);
      var k := |TrimEnd(s)|;
      assert s[..|s| - 1][..k] == s[..k];
      assert s[..|s| - 1][k..] == s[k..|s| - 1];
    }
  }

  /** Both ends stripped of white space; empty exactly for blank input. */
  function Trim(s: string): (r: string)
    ensures |r| <= |s|
    ensures r == [] || (!IsWhitespace(r[0]) && !IsWhitespace(r[|r| - 1]))
    ensures r == [] <==> AllWhitespace(s)
  {
    var t := TrimStart(s);
    var r := TrimEnd(t);
    TrimStartDrops(s);
    TrimEndDrops(t);
    var k := |s| - |t|;
    assert t != [] ==> t[0] == s[k];
    assert r != [] ==> r[0] == t[0];
    assert r == [] ==> t == [];
    assert t == [] ==> s[..k] == s;
    r
  }

  /** A text with no white space at either end is its own trim. */
  lemma TrimFixed(s: string)
    requires s == [] || (!IsWhitespace(s[0]) && !IsWhitespace(s[|s| - 1]))
    ensures Trim(s) == s
  {
  }

  /** Stripping twice is stripping once. */
  lemma TrimIdempotent(s: string)
    ensures Trim(Trim(s)) == Trim(s)
  {
    TrimFixed(Trim(s));
  }

  // ---------------------------------------------------------------------------
  // Prefixes and substrings
  // ---------------------------------------------------------------------------

  predicate StartsWith(s: string, prefix: string) {
    |prefix| <= |s| && s[..|prefix|] == prefix
  }

  predicate Contains(s: string, sub: string) {
    exists i | 0 <= i <= |s| - |sub| :: StartsWith(s[i..], sub)
  }

  lemma StartsWithTrans(a: string, b: string, c: string)
    requires StartsWith(a, b) && StartsWith(b, c)
    ensures StartsWith(a, c)
  {
    assert a[..|c|] == a[..|b|][..|c|];
  }

  lemma StartsWithAppend(s: string, t: string)
    ensures StartsWith(s + t, s)
  {
    assert (s + t)[..|s|] == s;
  }

  /** A common prefix can be cancelled: p + a starts with p + b iff a starts with b. */
  lemma StartsWithCancel(p: string, a: string, b: string)
    ensures StartsWith(p + a, p + b) <==> StartsWith(a, b)
  {
    if StartsWith(p + a, p + b) {
      assert a[..|b|] == (p + a)[..|p + b|][|p|..];
    }
    if StartsWith(a, b) {
      assert (p + a)[..|p + b|] == p + a[..|b|];
    }
  }

  // ---------------------------------------------------------------------------
  // Character replacement and filtering
  // ---------------------------------------------------------------------------

  /** Every occurrence of `from` replaced by `to` (Python str.replace on one character). */
  function ReplaceChar(s: string, from: char, to: char): (r: string)
    ensures |r| == |s|
    ensures forall i :: 0 <= i < |s| ==> r[i] == (if s[i] == from then to else s[i])
  {
    seq(|s|, i requires 0 <= i < |s| => if s[i] == from then to else s[i])
  }

  // ---------------------------------------------------------------------------
  // Splitting and joining on one separator character
  // ---------------------------------------------------------------------------

  function IndexOf(s: string, c: char): (i: nat)
    requires c in s
    ensures i < |s| && s[i] == c && c !in s[..i]
  {
    if s[0] == c then 0 else 1 + IndexOf(s[1..], c)
  }

  /** The first occurrence of c is right after a prefix that does not hold it. */
  lemma {:induction false} IndexOfAfter(a: string, c: char, b: string)
    requires c !in a
    ensures c in a + [c] + b
    ensures IndexOf(a + [c] + b, c) == |a|
    ensures (a + [c] + b)[..|a|] == a && (a + [c] + b)[|a| + 1..] == b
  {
    assert (a + [c] + b)[|a|] == c;
    if a != [] {
      assert (a + [c] + b)[1..] == a[1..] + [c] + b;
      IndexOfAfter(a[1..], c, b);
    }
  }

  /** Python's s.split(c, 1) when c occurs: the text before the first c and the text after it. */
  function SplitFirst(s: string, c: char): (r: (string, string))
    requires c in s
    ensures s == r.0 + [c] + r.1 && c !in r.0
  {
    var i := IndexOf(s, c);
    assert s == s[..i] + [c] + s[i + 1..];
    (s[..i], s[i + 1..])
  }

  /** Conversely, a text before c that does not hold c is exactly what SplitFirst returns. */
  lemma SplitFirstOf(a: string, c: char, b: string)
    requires c !in a
    ensures c in a + [c] + b && SplitFirst(a + [c] + b, c) == (a, b)
  {
    IndexOfAfter(a, c, b);
  }

  /** JavaScript's s.split(sep) and Python's s.split(sep) for a one-character separator. */
  function Split(s: string, sep: char): (parts: seq<string>)
    ensures |parts| >= 1
    ensures forall k :: 0 <= k < |parts| ==> sep !in parts[k]
    decreases |s|
  {
    if sep in s then
      var i := IndexOf(s, sep);
      [s[..i]] + Split(s[i + 1..], sep)
    else
      [s]
  }

  function Join(parts: seq<string>, sep: char): string {
    if |parts| == 0 then ""
    else if |parts| == 1 then parts[0]
    else parts[0] + [sep] + Join(parts[1..], sep)
  }

  lemma JoinCons(head: string, tail: seq<string>, sep: char)
    requires |tail| >= 1
    ensures Join([head] + tail, sep) == head + [sep] + Join(tail, sep)
  {
    assert ([head] + tail)[1..] == tail;
  }

  /** Splitting at the first separator: a separator-free head comes off as the first part. */
  lemma SplitCons(head: string, tail: string, sep: char)
    requires sep !in head
    ensures Split(head + [sep] + tail, sep) == [head] + Split(tail, sep)
  {
    IndexOfAfter(head, sep, tail);
  }

  /** Splitting the joined parts gives the parts back, when no part holds the separator. */
  lemma {:induction false} SplitJoin(parts: seq<string>, sep: char)
    requires |parts| >= 1
    requires forall k :: 0 <= k < |parts| ==> sep !in parts[k]
    ensures Split(Join(parts, sep), sep) == parts
  {
    if |parts| > 1 {
      JoinCons(parts[0], parts[1..], sep);
      assert parts == [parts[0]] + parts[1..];
      SplitCons(parts[0], Join(parts[1..], sep), sep);
      SplitJoin(parts[1..], sep);
    }
  }

  lemma SplitJoinCons(head: string, rest: seq<string>, sep: char)
    requires |rest| >= 1 && sep !in head
    ensures Split(Join([head] + rest, sep), sep) == [head] + Split(Join(rest, sep), sep)
  {
    JoinCons(head, rest, sep);
    SplitCons(head, Join(rest, sep), sep);
  }

  lemma ConcatAssoc<T>(a: seq<T>, b: seq<T>, c: seq<T>)
    ensures a + b + c == a + (b + c)
  {
  }

  lemma SplitJoinPrefixStep(first: string, later: seq<string>, back: seq<string>, sep: char)
    requires |back| >= 1 && sep !in first
    requires Split(Join(later + back, sep), sep) == later + Split(Join(back, sep), sep)
    ensures Split(Join([first] + later + back, sep), sep) == [first] + later + Split(Join(back, sep), sep)
  {
    var rest := later + back;
    ConcatAssoc([first], later, back);
    SplitJoinCons(first, rest, sep);
    ConcatAssoc([first], later, Split(Join(back, sep), sep));
  }

  /** Separator-free leading parts come back unchanged, whatever the later parts hold. */
  lemma {:induction false} SplitJoinPrefix(front: seq<string>, back: seq<string>, sep: char)
    requires |back| >= 1
    requires forall k :: 0 <= k < |front| ==> sep !in front[k]
    ensures Split(Join(front + back, sep), sep) == front + Split(Join(back, sep), sep)
  {
    if front != [] {
      SplitJoinPrefix(front[1..], back, sep);
      SplitJoinPrefixStep(front[0], front[1..], back, sep);
      assert front == [front[0]] + front[1..];
    } else {
      assert front + back == back;
    }
  }

  /** A trailing separator adds one empty last part. */
  lemma {:induction false} SplitTrailing(s: string, sep: char)
    ensures Split(s + [sep], sep) == Split(s, sep) + [""]
    decreases |s|
  {
    var t := s + [sep];
    if sep in s {
      var i := IndexOf(s, sep);
      var head, tail := s[..i], s[i + 1..];
      assert s == head + [sep] + tail;
      assert t == head + [sep] + (tail + [sep]);
      IndexOfAfter(head, sep, tail + [sep]);
      assert Split(t, sep) == [head] + Split(tail + [sep], sep);
      assert Split(s, sep) == [head] + Split(tail, sep);
      SplitTrailing(tail, sep);
      ConcatAssoc([head], Split(tail, sep), [""]);
    } else {
      assert t == s + [sep] + [];
      IndexOfAfter(s, sep, []);
    }
  }

  // ---------------------------------------------------------------------------
  // Distinct elements
  // ---------------------------------------------------------------------------

  predicate Distinct(s: seq<string>) {
    forall i, j :: 0 <= i < j < |s| ==> s[i] != s[j]
  }

  /** The first occurrence of each string, in order. */
  function Dedup(s: seq<string>): (r: seq<string>)
    ensures Distinct(r)
    ensures forall x :: x in r <==> x in s
  {
    if s == [] then []
    else
      var init := Dedup(s[..|s| - 1]);
      var x := s[|s| - 1];
      assert forall y :: y in s <==> y in s[..|s| - 1] || y == x by {
        assert s == s[..|s| - 1] + [x];
      }
      if x in init then init else init + [x]
  }

  /** Appending one element keeps the de-duplication and adds the element when it is new. */
  lemma DedupSnoc(s: seq<string>, x: string)
    ensures Dedup(s + [x]) == if x in Dedup(s) then Dedup(s) else Dedup(s) + [x]
  {
    assert (s + [x])[..|s|] == s;
  }

  lemma {:induction false} DedupPrefix(a: seq<string>, b: seq<string>)
    ensures |Dedup(a)| <= |Dedup(a + b)|
    ensures Dedup(a + b)[..|Dedup(a)|] == Dedup(a)
  {
    if b == [] {
      assert a + b == a;
    } else {
      var n := |b| - 1;
      assert (a + b)[..|a + b| - 1] == a + b[..n];
      DedupPrefix(a, b[..n]);
    }
  }

  // ---------------------------------------------------------------------------
  // Decimal numbers
  // ---------------------------------------------------------------------------

  predicate AllDigits(s: string) {
    forall i :: 0 <= i < |s| ==> IsDigit(s[i])
  }

  /** Python's str.isdigit on ASCII: non-empty and only digits. */
  predicate IsDigitString(s: string) {
    |s| > 0 && AllDigits(s)
  }

  function DigitChar(d: nat): (c: char)
    requires d < 10
    ensures IsDigit(c)
  {
    ('0' as int + d) as char
  }

  /** The decimal text of n (JavaScript `${n}`, Python str(n)). */
  function DecimalString(n: nat): (r: string)
    ensures IsDigitString(r)
    decreases n
  {
    if n < 10 then [DigitChar(n)] else DecimalString(n / 10) + [DigitChar(n % 10)]
  }

  /** The value of a digit string (Python int(s) after s.isdigit()). */
  function DigitsValue(s: string): nat
    requires AllDigits(s)
  {
    if s == [] then 0 else DigitsValue(s[..|s| - 1]) * 10 + (s[|s| - 1] as int - '0' as int)
  }

  lemma {:induction false} DecimalRoundTrip(n: nat)
    ensures DigitsValue(DecimalString(n)) == n
  {
    if n >= 10 {
      var s := DecimalString(n);
      assert s[..|s| - 1] == DecimalString(n / 10);
      DecimalRoundTrip(n / 10);
    }
  }
}
