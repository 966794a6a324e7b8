/** The pieces of Python's string built-ins that the core relies on:
    `str.isspace`, `sep.join(parts)`, `s.split(sep)` and `str(n)` for a
    non-negative int, together with the laws that relate them. */
module PyText {

  /** The characters `str.isspace` accepts, which are exactly the
      separators `str.split()` (no argument) splits on. */
  predicate IsSpace(c: char) {
    || c == ' '
    || ('\t' <= c <= '\r')
    || ('\U{1C}' <= c <= '\U{1F}')
    || c == '\U{85}' || c == '\U{A0}' || c == '\U{1680}'
    || ('\U{2000}' <= c <= '\U{200A}')
    || c == '\U{2028}' || c == '\U{2029}' || c == '\U{202F}' || c == '\U{205F}' || c == '\U{3000}'
  }

  /** `sep.join(parts)`. */
  function Join(parts: seq<string>, sep: string): string
    decreases |parts|
  {
    if |parts| == 0 then ""
    else if |parts| == 1 then parts[0]
    else parts[0] + sep + Join(parts[1..], sep)
  }

  lemma JoinCons(x: string, parts: seq<string>, sep: string)
    requires parts != []
    ensures Join([x] + parts, sep) == x + sep + Join(parts, sep)
    ensures Join([x] + parts, sep) == x + (sep + Join(parts, sep))
  {
    assert ([x] + parts)[1..] == parts;
  }

  /** Joining one more part appends the separator and that part at the end. */
  lemma {:induction false} JoinSnoc(parts: seq<string>, x: string, sep: string)
    requires parts != []
    ensures Join(parts + [x], sep) == Join(parts, sep) + sep + x
  {
    if |parts| == 1 {
      assert parts + [x] == [parts[0]] + [x];
      JoinCons(parts[0], [x], sep);
    } else {
      assert parts + [x] == [parts[0]] + (parts[1..] + [x]);
      JoinCons(parts[0], parts[1..] + [x], sep);
      JoinSnoc(parts[1..], x, sep);
      JoinCons(parts[0], parts[1..], sep);
      assert parts == [parts[0]] + parts[1..];
    }
  }

  /** `s.split(c)` for a one-character separator: the pieces between the
      occurrences of `c`, always at least one (`"".split("/") == [""]`). */
  function Split(s: string, c: char): (pieces: seq<string>)
    ensures |pieces| >= 1
    ensures forall k :: 0 <= k < |pieces| ==> c !in pieces[k]
    ensures |pieces| == 1 <==> c !in s
    decreases |s|
  {
    if s == [] then [""]
    else
      var rest := Split(s[1..], c);
      assert c in s <==> s[0] == c || c in s[1..] by { assert s == [s[0]] + s[1..]; }
      if s[0] == c then [""] + rest
      else [[s[0]] + rest[0]] + rest[1..]
  }

  /** Splitting and joining back with the same separator gives the input. */
  lemma {:induction false} SplitJoin(s: string, c: char)
    ensures Join(Split(s, c), [c]) == s
  {
    if s != [] {
      var rest := Split(s[1..], c);
      SplitJoin(s[1..], c);
      if s[0] == c {
        JoinCons("", rest, [c]);
      } else if |rest| == 1 {
        assert Split(s, c) == [[s[0]] + rest[0]];
      } else {
        assert rest == [rest[0]] + rest[1..];
        JoinCons(rest[0], rest[1..], [c]);
        JoinCons([s[0]] + rest[0], rest[1..], [c]);
      }
    }
  }

  /** A separator-free tail after the last separator is the last piece. */
  lemma {:induction false} SplitLastAfter(p: string, c: char, w: string)
    requires c !in w
    ensures var pieces := Split(p + [c] + w, c); pieces[|pieces| - 1] == w
  {
    if p == [] {
      assert p + [c] + w == [c] + w;
      SplitNoSep(w, c);
      assert ([c] + w)[1..] == w;
      assert Split([c] + w, c) == [""] + [w];
    } else {
      assert (p + [c] + w)[1..] == p[1..] + [c] + w;
      assert c in p[1..] + [c] + w;
      SplitLastAfter(p[1..], c, w);
    }
  }

  /** A string without the separator splits into itself alone. */
  lemma {:induction false} SplitNoSep(s: string, c: char)
    requires c !in s
    ensures Split(s, c) == [s]
  {
    if s != [] {
      assert c !in s[1..] by {
        forall k | 0 <= k < |s[1..]| ensures s[1..][k] != c { assert s[1..][k] == s[k + 1]; }
      }
      SplitNoSep(s[1..], c);
      assert s == [s[0]] + s[1..];
    }
  }

  /** The last piece is a suffix of the input; when the input holds the
      separator, that suffix is preceded by it. */
  lemma {:induction false} SplitLastSuffix(s: string, c: char)
    ensures var pieces := Split(s, c); var w := pieces[|pieces| - 1];
      |w| <= |s| && s[|s| - |w|..] == w && (c in s ==> |w| < |s| && s[|s| - |w| - 1] == c)
  {
    if c !in s {
      SplitNoSep(s, c);
    } else {
      var rest := Split(s[1..], c);
      assert s == [s[0]] + s[1..];
      if c in s[1..] {
        assert Split(s, c)[|Split(s, c)| - 1] == rest[|rest| - 1];
        SplitLastSuffix(s[1..], c);
        var w := rest[|rest| - 1];
        assert s[1..][|s[1..]| - |w|..] == s[|s| - |w|..];
        assert s[1..][|s[1..]| - |w| - 1] == s[|s| - |w| - 1];
      } else {
        assert s[0] == c;
        SplitNoSep(s[1..], c);
        assert Split(s, c) == [""] + [s[1..]];
      }
    }
  }

  /** The decimal digit for `d`. */
  function Digit(d: nat): char
    requires d < 10
  {
    "0123456789"[d]
  }

  /** The value of a decimal digit character (0 for any other character). */
  function DigitValue(c: char): nat {
    if '0' <= c <= '9' then c as int - '0' as int else 0
  }

  predicate IsDigit(c: char) {
    '0' <= c <= '9'
  }

  /** `str(n)` for a non-negative int: its decimal digits, without leading zeros. */
  function NatToString(n: nat): (r: string)
    ensures r != [] && forall k :: 0 <= k < |r| ==> IsDigit(r[k])
    ensures r[0] == '0' <==> n == 0
    decreases n
  {
    if n < 10 then [Digit(n)] else NatToString(n / 10) + [Digit(n % 10)]
  }

  /** The number a string of decimal digits denotes (most significant first). */
  function ParseNat(s: string): nat
    decreases |s|
  {
    if s == [] then 0 else 10 * ParseNat(s[..|s| - 1]) + DigitValue(s[|s| - 1])
  }

  /** Printing a number in decimal loses nothing: it can be read back. */
  lemma {:induction false} ParseNatToString(n: nat)
    ensures ParseNat(NatToString(n)) == n
  {
    if n >= 10 {
      var s := NatToString(n / 10) + [Digit(n % 10)];
      assert s[..|s| - 1] == NatToString(n / 10);
      ParseNatToString(n / 10);
    }
  }

  /** Distinct numbers print differently. */
  lemma NatToStringInjective(m: nat, n: nat)
    requires NatToString(m) == NatToString(n)
    ensures m == n
  {
    ParseNatToString(m);
    ParseNatToString(n);
  }

  /** The longest prefix made of decimal digits. */
  function TakeDigits(s: string): (d: string)
    ensures |d| <= |s| && d == s[..|d|]
    decreases |s|
  {
    if s == [] || !IsDigit(s[0]) then [] else [s[0]] + TakeDigits(s[1..])
  }

  /** A digit string followed by a non-digit is read off exactly. */
  lemma {:induction false} TakeDigitsExact(n: string, t: string)
    requires forall k :: 0 <= k < |n| ==> IsDigit(n[k])
    requires t == [] || !IsDigit(t[0])
    ensures TakeDigits(n + t) == n
    decreases |n|
  {
    if n != [] {
      assert (n + t)[0] == n[0];
      assert (n + t)[1..] == n[1..] + t;
      TakeDigitsExact(n[1..], t);
      assert n == [n[0]] + n[1..];
    }
  }
}
