/** String operations the core relies on: JavaScript's character classes (`\d`,
    `\s`), `replace(/\D/g, '')`, `slice(0, n)`, `trim()`, ASCII `toLowerCase()`
    and `split(' ')` / `join(' ')`. */
module Text {

  predicate IsDigit(c: char) { '0' <= c <= '9' }
  predicate IsUpper(c: char) { 'A' <= c <= 'Z' }
  predicate IsLower(c: char) { 'a' <= c <= 'z' }
  predicate IsLetter(c: char) { IsUpper(c) || IsLower(c) }

  /** The characters of JavaScript's `\s` class, which are also the ones `trim()` removes. */
  predicate IsWhitespace(c: char) {
    c == ' ' || c == '\t' || c == '\n' || c == '\r' || c == '\U{000B}' || c == '\U{000C}'
    || c == '\U{00A0}' || c == '\U{1680}' || ('\U{2000}' <= c <= '\U{200A}')
    || c == '\U{2028}' || c == '\U{2029}' || c == '\U{202F}' || c == '\U{205F}'
    || c == '\U{3000}' || c == '\U{FEFF}'
  }

  predicate AllDigits(s: string) { forall i :: 0 <= i < |s| ==> IsDigit(s[i]) }

  /** `s.replace(/\D/g, '')`: the digits of `s`, in order. */
  function DigitsOnly(s: string): (r: string)
    ensures AllDigits(r) && |r| <= |s|
  {
    if s == [] then []
    else if IsDigit(s[0]) then [s[0]] + DigitsOnly(s[1..])
    else DigitsOnly(s[1..])
  }

  /** Keeping the digits of a string made only of digits gives it back. */
  lemma {:induction false} DigitsOnlyOfDigits(s: string)
    requires AllDigits(s)
    ensures DigitsOnly(s) == s
  {
    if s != [] { DigitsOnlyOfDigits(s[1..]); }
  }

  /** Keeping digits distributes over concatenation, so it never reorders digits. */
  lemma {:induction false} DigitsOnlyAppend(a: string, b: string)
    ensures DigitsOnly(a + b) == DigitsOnly(a) + DigitsOnly(b)
  {
    if a == [] {
      assert a + b == b;
    } else {
      assert (a + b)[1..] == a[1..] + b;
      DigitsOnlyAppend(a[1..], b);
    }
  }

  /** `s.slice(0, n)` for `n >= 0`. */
  function Take(s: string, n: nat): (r: string)
    ensures |r| == if |s| < n then |s| else n
    ensures r <= s
  {
    if |s| <= n then s else s[..n]
  }

  function TrimStart(s: string): (r: string)
    ensures |r| <= |s|
    decreases |s|
  {
    if s != [] && IsWhitespace(s[0]) then TrimStart(s[1..]) else s
  }

  function TrimEnd(s: string): (r: string)
    decreases |s|
  {
    if s != [] && IsWhitespace(s[|s| - 1]) then TrimEnd(s[..|s| - 1]) else s
  }

  /** `s.trim()`. */
  function Trim(s: string): string { TrimEnd(TrimStart(s)) }

  /** Every character of `s` at an index in `[lo, hi)` is whitespace. */
  predicate WhitespaceBetween(s: string, lo: int, hi: int)
    requires 0 <= lo && hi <= |s|
  {
    forall k :: lo <= k < hi ==> IsWhitespace(s[k])
  }

  lemma {:induction false} TrimStartSpec(s: string)
    ensures exists i :: 0 <= i <= |s| && TrimStart(s) == s[i..] && WhitespaceBetween(s, 0, i)
    ensures TrimStart(s) != [] ==> !IsWhitespace(TrimStart(s)[0])
    decreases |s|
  {
    if s != [] && IsWhitespace(s[0]) {
      var t := s[1..];
      TrimStartSpec(t);
      var i :| 0 <= i <= |t| && TrimStart(t) == t[i..] && WhitespaceBetween(t, 0, i);
      assert t[i..] == s[i + 1..];
      assert forall k :: 1 <= k < i + 1 ==> s[k] == t[k - 1];
      assert WhitespaceBetween(s, 0, i + 1);
    } else {
      assert s[0..] == s;
    }
  }

  lemma {:induction false} TrimEndSpec(s: string)
    ensures exists j :: 0 <= j <= |s| && TrimEnd(s) == s[..j] && WhitespaceBetween(s, j, |s|)
    ensures TrimEnd(s) != [] ==> !IsWhitespace(TrimEnd(s)[|TrimEnd(s)| - 1])
    decreases |s|
  {
    if s != [] && IsWhitespace(s[|s| - 1]) {
      var t := s[..|s| - 1];
      TrimEndSpec(t);
      var j :| 0 <= j <= |t| && TrimEnd(t) == t[..j] && WhitespaceBetween(t, j, |t|);
      assert t[..j] == s[..j];
      assert forall k :: j <= k < |t| ==> s[k] == t[k];
      assert WhitespaceBetween(s, j, |s|);
    } else {
      assert s[..|s|] == s;
    }
  }

  /** `trim()` removes whitespace from both ends and nothing else: the result is a
      contiguous part of the input and what was cut off is whitespace. */
  lemma TrimSpec(s: string)
    ensures exists i, j :: 0 <= i <= j <= |s| && Trim(s) == s[i..j]
                           && WhitespaceBetween(s, 0, i) && WhitespaceBetween(s, j, |s|)
  {
    TrimStartSpec(s);
    var i :| 0 <= i <= |s| && TrimStart(s) == s[i..] && WhitespaceBetween(s, 0, i);
    var t := TrimStart(s);
    TrimEndSpec(t);
    var j :| 0 <= j <= |t| && TrimEnd(t) == t[..j] && WhitespaceBetween(t, j, |t|);
    assert Trim(s) == s[i..i + j];
    assert WhitespaceBetween(s, i + j, |s|) by {
      assert forall k :: i + j <= k < |s| ==> s[k] == t[k - i];
    }
  }

  /** What `trim()` returns neither starts nor ends with whitespace. */
  lemma TrimEnds(s: string)
    ensures Trim(s) != [] ==> !IsWhitespace(Trim(s)[0]) && !IsWhitespace(Trim(s)[|Trim(s)| - 1])
  {
    TrimStartSpec(s);
    TrimEndSpec(TrimStart(s));
    TrimStartFirst(TrimStart(s));
  }

  /** What `TrimEnd` keeps of a string that does not start with whitespace does not either. */
  lemma {:induction false} TrimStartFirst(t: string)
    requires t == [] || !IsWhitespace(t[0])
    ensures TrimEnd(t) == [] || !IsWhitespace(TrimEnd(t)[0])
    decreases |t|
  {
    if t != [] && IsWhitespace(t[|t| - 1]) {
      TrimStartFirst(t[..|t| - 1]);
    }
  }

  /** ASCII `toLowerCase()`. */
  function LowerChar(c: char): char {
    if IsUpper(c) then (c as int - 'A' as int + 'a' as int) as char else c
  }

  function ToLower(s: string): (r: string)
    ensures |r| == |s| && forall i :: 0 <= i < |s| ==> r[i] == LowerChar(s[i])
  {
    seq(|s|, i requires 0 <= i < |s| => LowerChar(s[i]))
  }

  /** Emails are compared by their lower-case forms. */
  predicate SameIgnoringCase(a: string, b: string) { ToLower(a) == ToLower(b) }

  /** Index of the first `c` in `s`, or `|s|` when there is none. */
  function IndexOf(s: string, c: char): (k: nat)
    ensures k <= |s|
    ensures k < |s| ==> s[k] == c
    ensures forall i :: 0 <= i < k ==> s[i] != c
  {
    if s == [] then 0 else if s[0] == c then 0 else 1 + IndexOf(s[1..], c)
  }

  /** `s.split(sep)` for a one-character separator. */
  function Split(s: string, sep: char): (parts: seq<string>)
    ensures |parts| >= 1
    decreases |s|
  {
    var k := IndexOf(s, sep);
    if k == |s| then [s] else [s[..k]] + Split(s[k + 1..], sep)
  }

  /** `parts.join(sep)`. */
  function Join(parts: seq<string>, sep: char): string {
    if |parts| == 0 then ""
    else if |parts| == 1 then parts[0]
    else parts[0] + [sep] + Join(parts[1..], sep)
  }

  /** Joining the pieces of a split with the same separator gives back the string. */
  lemma {:induction false} JoinSplit(s: string, sep: char)
    ensures Join(Split(s, sep), sep) == s
    decreases |s|
  {
    var k := IndexOf(s, sep);
    if k < |s| {
      JoinSplit(s[k + 1..], sep);
      assert s == s[..k] + [sep] + s[k + 1..];
    }
  }

  /** No piece of a split contains the separator. */
  lemma {:induction false} SplitPiecesLackSeparator(s: string, sep: char)
    ensures forall p :: p in Split(s, sep) ==> sep !in p
    decreases |s|
  {
    var k := IndexOf(s, sep);
    if k < |s| {
      SplitPiecesLackSeparator(s[k + 1..], sep);
      assert sep !in s[..k];
    } else {
      assert sep !in s;
    }
  }
}
