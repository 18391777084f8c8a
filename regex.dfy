/** The fragment of JavaScript regular expressions that the validation schemas use:
    character classes, concatenation, alternation, `?`, `+` and `{n}`, together
    with what it means for a pattern to match a whole string (`^...$`) or to occur
    somewhere in it (a pattern without anchors, as `RegExp.test` uses it). */
module RegexModel {
  import opened Text
  import opened Common

  /** A bracketed character class such as `[A-Z]` or `[a-zA-Z\s'-]`. */
  datatype CharClass =
    | Range(lo: char, hi: char)
    | OneOf(chars: string)
    | Space
    | Union(left: CharClass, right: CharClass)

  predicate InClass(cc: CharClass, c: char) {
    match cc
    case Range(lo, hi) => lo <= c <= hi
    case OneOf(chars) => c in chars
    case Space => IsWhitespace(c)
    case Union(l, r) => InClass(l, c) || InClass(r, c)
  }

  /** `\d` */
  const Digit := Range('0', '9')

  datatype Re =
    | Empty
    | Char(cc: CharClass)
    | Cat(left: Re, right: Re)
    | Alt(left: Re, right: Re)
    | Opt(inner: Re)
    | Plus(inner: Re)

  /** `c{n}` */
  function Rep(cc: CharClass, n: nat): Re {
    if n == 0 then Empty else Cat(Char(cc), Rep(cc, n - 1))
  }

  /** The single literal character `c`. */
  function Lit(c: char): Re { Char(OneOf([c])) }

  /** `r` matches all of `s`. */
  predicate Matches(r: Re, s: string)
    decreases r, |s|
  {
    match r
    case Empty => s == []
    case Char(cc) => |s| == 1 && InClass(cc, s[0])
    case Cat(a, b) => exists k | 0 <= k <= |s| :: Matches(a, s[..k]) && Matches(b, s[k..])
    case Alt(a, b) => Matches(a, s) || Matches(b, s)
    case Opt(a) => s == [] || Matches(a, s)
    case Plus(a) =>
      (s == [] && Matches(a, s))
      || exists k | 1 <= k <= |s| :: Matches(a, s[..k]) && (k == |s| || Matches(Plus(a), s[k..]))
  }

  /** `r` matches some substring of `s`: `RegExp.test` for a pattern without anchors. */
  predicate Occurs(r: Re, s: string) {
    exists i, j | 0 <= i <= j <= |s| :: Matches(r, s[i..j])
  }

  /** The length every match of `r` has, when all its matches have the same length. */
  function FixedLength(r: Re): Option<nat> {
    match r
    case Empty => Some(0)
    case Char(_) => Some(1)
    case Cat(a, b) =>
      var la, lb := FixedLength(a), FixedLength(b);
      if la.Some? && lb.Some? then Some(la.value + lb.value) else None
    case Alt(a, b) =>
      var la, lb := FixedLength(a), FixedLength(b);
      if la.Some? && lb.Some? && la.value == lb.value then la else None
    case Opt(_) => None
    case Plus(_) => None
  }

  lemma {:induction false} FixedLengthSound(r: Re, s: string)
    requires FixedLength(r).Some? && Matches(r, s)
    ensures |s| == FixedLength(r).value
  {
    match r
    case Empty =>
    case Char(_) =>
    case Cat(a, b) =>
      var k :| 0 <= k <= |s| && Matches(a, s[..k]) && Matches(b, s[k..]);
      FixedLengthSound(a, s[..k]);
      FixedLengthSound(b, s[k..]);
    case Alt(a, b) =>
      if Matches(a, s) { FixedLengthSound(a, s); } else { FixedLengthSound(b, s); }
  }

  /** When the left part has a fixed length `n`, a concatenation matches exactly
      when the first `n` characters match the left part and the rest the right. */
  lemma CatFixed(a: Re, b: Re, s: string)
    requires FixedLength(a).Some?
    ensures Matches(Cat(a, b), s) <==>
            var n := FixedLength(a).value;
            n <= |s| && Matches(a, s[..n]) && Matches(b, s[n..])
  {
    var n := FixedLength(a).value;
    if Matches(Cat(a, b), s) {
      var k :| 0 <= k <= |s| && Matches(a, s[..k]) && Matches(b, s[k..]);
      FixedLengthSound(a, s[..k]);
    }
    if n <= |s| && Matches(a, s[..n]) && Matches(b, s[n..]) {
      assert Matches(Cat(a, b), s) by {
        assert 0 <= n <= |s| && Matches(a, s[..n]) && Matches(b, s[n..]);
      }
    }
  }

  predicate AllIn(cc: CharClass, s: string) { forall i :: 0 <= i < |s| ==> InClass(cc, s[i]) }

  lemma {:induction false} RepFixed(cc: CharClass, n: nat)
    ensures FixedLength(Rep(cc, n)) == Some(n)
  {
    if n > 0 { RepFixed(cc, n - 1); }
  }

  /** `c{n}` matches exactly the strings of `n` characters of class `c`. */
  lemma {:induction false} RepMatches(cc: CharClass, n: nat, s: string)
    ensures Matches(Rep(cc, n), s) <==> |s| == n && AllIn(cc, s)
  {
    if n > 0 {
      CatFixed(Char(cc), Rep(cc, n - 1), s);
      if |s| >= 1 {
        RepMatches(cc, n - 1, s[1..]);
        assert AllIn(cc, s) <==> InClass(cc, s[0]) && AllIn(cc, s[1..]) by {
          assert forall i :: 1 <= i < |s| ==> s[i] == s[1..][i - 1];
        }
      }
    }
  }

  /** `c+` matches exactly the non-empty strings of characters of class `c`. */
  lemma {:induction false} PlusCharMatches(cc: CharClass, s: string)
    ensures Matches(Plus(Char(cc)), s) <==> |s| >= 1 && AllIn(cc, s)
    decreases |s|
  {
    if |s| >= 2 {
      PlusCharMatches(cc, s[1..]);
      assert AllIn(cc, s) <==> InClass(cc, s[0]) && AllIn(cc, s[1..]) by {
        assert forall i :: 1 <= i < |s| ==> s[i] == s[1..][i - 1];
      }
      if Matches(Plus(Char(cc)), s) {
        var k :| 1 <= k <= |s| && Matches(Char(cc), s[..k]) && (k == |s| || Matches(Plus(Char(cc)), s[k..]));
        assert k == 1;
      }
      if AllIn(cc, s) {
        assert Matches(Char(cc), s[..1]) && Matches(Plus(Char(cc)), s[1..]);
      }
    } else if |s| == 1 {
      if AllIn(cc, s) {
        assert Matches(Char(cc), s[..1]);
      }
    }
  }

  /** An unanchored single-character class occurs in `s` exactly when some
      character of `s` belongs to it. */
  lemma CharOccurs(cc: CharClass, s: string)
    ensures Occurs(Char(cc), s) <==> exists i :: 0 <= i < |s| && InClass(cc, s[i])
  {
    if Occurs(Char(cc), s) {
      var i, j :| 0 <= i <= j <= |s| && Matches(Char(cc), s[i..j]);
      assert s[i..j][0] == s[i];
    }
    if exists i :: 0 <= i < |s| && InClass(cc, s[i]) {
      var i :| 0 <= i < |s| && InClass(cc, s[i]);
      assert s[i..i + 1][0] == s[i];
      assert Matches(Char(cc), s[i..i + 1]);
    }
  }
}
