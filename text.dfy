/** Python string primitives the reader relies on: `str.split(sep)`, `str.split()`
    (whitespace tokens) and decimal formatting of integers. */
module Text {

  /** Characters for which Python's `str.isspace()` holds. */
  predicate IsSpace(c: char)
  {
    || c == ' ' || ('\t' <= c <= '\r') || ('\U{1C}' <= c <= '\U{1F}')
    || c == '\U{85}' || c == '\U{A0}' || c == '\U{1680}' || ('\U{2000}' <= c <= '\U{200A}')
    || c == '\U{2028}' || c == '\U{2029}' || c == '\U{202F}' || c == '\U{205F}' || c == '\U{3000}'
  }

  /** Number of occurrences of `c` in `s`. */
  function Count(s: string, c: char): nat
  {
    if s == [] then 0 else (if s[0] == c then 1 else 0) + Count(s[1..], c)
  }

  /** Python's `s.split(c)`: the pieces between the occurrences of `c`, empty ones included. */
  function Pieces(s: string, c: char): (r: seq<string>)
    ensures |r| == Count(s, c) + 1
    ensures forall i :: 0 <= i < |r| ==> c !in r[i]
  {
    if s == [] then [""]
    else if s[0] == c then [""] + Pieces(s[1..], c)
    else
      var p := Pieces(s[1..], c);
      [[s[0]] + p[0]] + p[1..]
  }

  /** Index of the first `c` in `s`. */
  function IndexOf(s: string, c: char): (i: nat)
    requires c in s
    ensures i < |s| && s[i] == c && c !in s[..i]
  {
    if s[0] == c then 0 else 1 + IndexOf(s[1..], c)
  }

  lemma {:induction false} CountZero(s: string, c: char)
    ensures Count(s, c) == 0 <==> c !in s
  {
    if s != [] {
      CountZero(s[1..], c);
      assert s == [s[0]] + s[1..];
    }
  }

  /** When `s` holds `c`, `s.split(c)` is the part before the first `c` followed by the
      split of the rest. */
  lemma {:induction false} PiecesFirst(s: string, c: char)
    requires c in s
    ensures Pieces(s, c) == [s[..IndexOf(s, c)]] + Pieces(s[IndexOf(s, c) + 1..], c)
  {
    if s[0] != c {
      var j := IndexOf(s[1..], c);
      PiecesFirst(s[1..], c);
      assert s[1..][j + 1..] == s[j + 2..];
      assert [s[0]] + s[1..][..j] == s[..j + 1];
    }
  }

  /** Without `c`, `s.split(c)` is `[s]`. */
  lemma {:induction false} PiecesNone(s: string, c: char)
    requires c !in s
    ensures Pieces(s, c) == [s]
  {
    if s != [] {
      PiecesNone(s[1..], c);
      assert [s[0]] + s[1..] == s;
    }
  }

  /** `len(s.split(c)) == 2` exactly when `s` holds one `c`, and then the two pieces are the
      text before and after it. */
  lemma PiecesTwo(s: string, c: char)
    ensures |Pieces(s, c)| == 2 <==> Count(s, c) == 1
    ensures Count(s, c) == 1 ==> c in s
    ensures Count(s, c) == 1 ==>
      Pieces(s, c) == [s[..IndexOf(s, c)], s[IndexOf(s, c) + 1..]]
  {
    if Count(s, c) == 1 {
      CountZero(s, c);
      PiecesFirst(s, c);
      var rest := s[IndexOf(s, c) + 1..];
      assert |Pieces(rest, c)| == 1;
      assert c !in rest by {
        CountZero(rest, c);
      }
      PiecesNone(rest, c);
    }
  }

  /** Length of the run of non-whitespace characters that starts `s`. */
  function WordLength(s: string): (n: nat)
    ensures n <= |s|
    ensures forall i :: 0 <= i < n ==> !IsSpace(s[i])
    ensures n < |s| ==> IsSpace(s[n])
  {
    if s == [] || IsSpace(s[0]) then 0 else 1 + WordLength(s[1..])
  }

  /** Python's `s.split()`: the maximal runs of non-whitespace characters, in order. */
  function Tokens(s: string): (r: seq<string>)
    ensures forall i :: 0 <= i < |r| ==> r[i] != [] && forall j :: 0 <= j < |r[i]| ==> !IsSpace(r[i][j])
    decreases |s|
  {
    if s == [] then []
    else if IsSpace(s[0]) then Tokens(s[1..])
    else
      var n := WordLength(s);
      [s[..n]] + Tokens(s[n..])
  }

  /** `s.replace("\r", "\n")`. */
  function ReplaceCR(s: string): (r: string)
    ensures |r| == |s|
    ensures forall i :: 0 <= i < |s| ==> r[i] == (if s[i] == '\r' then '\n' else s[i])
  {
    seq(|s|, i requires 0 <= i < |s| => if s[i] == '\r' then '\n' else s[i])
  }

  lemma {:induction false} WordLengthReplaceCR(s: string)
    ensures WordLength(ReplaceCR(s)) == WordLength(s)
    ensures ReplaceCR(s)[..WordLength(s)] == s[..WordLength(s)]
    decreases |s|
  {
    if s != [] && !IsSpace(s[0]) {
      assert ReplaceCR(s)[1..] == ReplaceCR(s[1..]);
      WordLengthReplaceCR(s[1..]);
    }
  }

  /** Turning carriage returns into line feeds never changes the whitespace tokens, since
      both are whitespace: the `replace` before `split()` is redundant. */
  lemma {:induction false} TokensReplaceCR(s: string)
    ensures Tokens(ReplaceCR(s)) == Tokens(s)
    decreases |s|
  {
    if s != [] {
      var r := ReplaceCR(s);
      if IsSpace(s[0]) {
        assert r[1..] == ReplaceCR(s[1..]);
        TokensReplaceCR(s[1..]);
      } else {
        var n := WordLength(s);
        WordLengthReplaceCR(s);
        assert r[n..] == ReplaceCR(s[n..]);
        TokensReplaceCR(s[n..]);
      }
    }
  }

  function Digit(n: nat): char
    requires n < 10
  {
    "0123456789"[n]
  }

  /** Python's `str(n)` for a natural number. */
  function NatText(n: nat): (r: string)
    ensures |r| >= 1
    ensures (|r| == 1) == (n < 10)
    decreases n
  {
    if n < 10 then [Digit(n)] else NatText(n / 10) + [Digit(n % 10)]
  }

  /** Different numbers print differently. */
  lemma {:induction false} NatTextInjective(m: nat, n: nat)
    requires NatText(m) == NatText(n)
    ensures m == n
    decreases n
  {
    if m >= 10 && n >= 10 {
      var a, b := NatText(m), NatText(n);
      assert a[|a| - 1] == Digit(m % 10) && b[|b| - 1] == Digit(n % 10);
      assert a[..|a| - 1] == NatText(m / 10) && b[..|b| - 1] == NatText(n / 10);
      NatTextInjective(m / 10, n / 10);
    }
  }

  /** A printed number is made of decimal digits only. */
  lemma {:induction false} NatTextDigits(n: nat)
    ensures forall i :: 0 <= i < |NatText(n)| ==> '0' <= NatText(n)[i] <= '9'
    decreases n
  {
    if n >= 10 {
      NatTextDigits(n / 10);
      var r := NatText(n);
      assert r == NatText(n / 10) + [Digit(n % 10)];
    }
  }

  /** Python's `str(i)` for an integer. */
  function IntText(i: int): string
  {
    if i < 0 then "-" + NatText(-i) else NatText(i)
  }
}
