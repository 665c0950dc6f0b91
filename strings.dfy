/** The ordinal string operations of .NET that object-name classification relies on:
    Contains, Replace with an empty replacement, Split on one character, and
    byte.TryParse. Strings are sequences of UTF-16 code units, compared ordinally. */
module Strings {
  import opened Common

  predicate StartsWith(s: string, p: string)
  {
    |p| <= |s| && s[..|p|] == p
  }

  /** `s.Contains(p)`. */
  predicate Contains(s: string, p: string)
    decreases |s|
  {
    StartsWith(s, p) || (|s| > 0 && Contains(s[1..], p))
  }

  /** A pattern occurs in `s` exactly when it starts at some position of `s`. */
  lemma {:induction false} ContainsAt(s: string, p: string, i: nat)
    requires i + |p| <= |s| && s[i..i + |p|] == p
    ensures Contains(s, p)
  {
    if i > 0 {
      assert s[1..][i - 1..i - 1 + |p|] == s[i..i + |p|];
      ContainsAt(s[1..], p, i - 1);
    }
  }

  /** Whenever `s` contains `p`, it has an occurrence at some index. */
  lemma {:induction false} ContainsWitness(s: string, p: string) returns (i: nat)
    requires Contains(s, p)
    ensures i + |p| <= |s| && s[i..i + |p|] == p
  {
    if StartsWith(s, p) {
      i := 0;
    } else {
      var j := ContainsWitness(s[1..], p);
      assert s[1..][j..j + |p|] == s[j + 1..j + 1 + |p|];
      i := j + 1;
    }
  }

  /** Containment is transitive: a name that contains "Fat Fly" contains "Fly". */
  lemma ContainsTransitive(s: string, p: string, q: string)
    requires Contains(s, p) && Contains(p, q)
    ensures Contains(s, q)
  {
    var i := ContainsWitness(s, p);
    var j := ContainsWitness(p, q);
    forall k | 0 <= k < |q| ensures s[i + j + k] == q[k] {
      assert p[j + k] == q[k];
      assert s[i..i + |p|][j + k] == p[j + k];
    }
    assert s[i + j..i + j + |q|] == q;
    ContainsAt(s, q, i + j);
  }

  /** A pattern with a character that `s` lacks does not occur in `s`. */
  lemma {:induction false} MissingChar(s: string, p: string, k: nat)
    requires k < |p| && p[k] !in s
    ensures !Contains(s, p)
  {
    if |s| > 0 {
      assert p[k] !in s[1..];
      MissingChar(s[1..], p, k);
    }
  }

  /** `s.Replace(p, "")`: removes every occurrence of `p`, scanning left to right
      without overlap (the patterns used are never empty). */
  function RemoveAll(s: string, p: string): (r: string)
    requires |p| > 0
    decreases |s|
    ensures |r| <= |s|
    ensures forall i :: 0 <= i < |r| ==> r[i] in s
    ensures !Contains(s, p) ==> r == s
    ensures |p| == 1 ==> p[0] !in r
  {
    if |s| < |p| then s
    else if s[..|p|] == p then RemoveAll(s[|p|..], p)
    else
      var rest := RemoveAll(s[1..], p);
      assert forall i :: 0 <= i < |rest| ==> rest[i] in s by {
        forall i | 0 <= i < |rest| ensures rest[i] in s {
          assert rest[i] in s[1..];
        }
      }
      [s[0]] + rest
  }

  /** A string that starts with `p` loses that occurrence first. */
  lemma RemovePrefix(p: string, rest: string)
    requires |p| > 0
    ensures RemoveAll(p + rest, p) == RemoveAll(rest, p)
  {
    assert (p + rest)[..|p|] == p;
    assert (p + rest)[|p|..] == rest;
  }

  /** Removing a single character distributes over concatenation. */
  lemma {:induction false} RemoveCharAppend(a: string, b: string, c: char)
    ensures RemoveAll(a + b, [c]) == RemoveAll(a, [c]) + RemoveAll(b, [c])
  {
    if a == [] {
      assert a + b == b;
    } else {
      assert (a + b)[1..] == a[1..] + b;
      RemoveCharAppend(a[1..], b, c);
    }
  }

  /** `s.Split(sep)`: the pieces of `s` between its separators, in order. */
  function Split(s: string, sep: char): (r: seq<string>)
    ensures |r| >= 1
    decreases |s|
  {
    if s == [] then [[]] else SplitStep(s[0], Split(s[1..], sep), sep)
  }

  /** One step of the split, from the pieces `t` of the rest of the string: a leading
      separator starts a new, empty piece; any other character joins the first piece. */
  function SplitStep(c: char, t: seq<string>, sep: char): (r: seq<string>)
    requires |t| >= 1
    ensures |r| >= 1
  {
    if c == sep then [[]] + t else [[c] + t[0]] + t[1..]
  }

  /** `last` is the part of `s` after its last `sep`: a suffix of `s` without `sep`,
      preceded by `sep` unless it is all of `s`. */
  predicate LastPiece(s: string, last: string, sep: char)
  {
    |last| <= |s| && last == s[|s| - |last|..]
    && (forall i :: |s| - |last| <= i < |s| ==> s[i] != sep)
    && (|last| == |s| || s[|s| - |last| - 1] == sep)
  }

  /** What the pieces of a split promise: no piece holds the separator, the last piece
      is everything after the last separator, and a single piece is the whole string. */
  predicate SplitPieces(s: string, r: seq<string>, sep: char)
  {
    |r| >= 1
    && (forall i :: 0 <= i < |r| ==> sep !in r[i])
    && LastPiece(s, r[|r| - 1], sep)
    && (|r| > 1 ==> |r[|r| - 1]| < |s|)
    && (|r| == 1 ==> r[0] == s)
  }

  /** The pieces of `s.Split(sep)` have the properties .NET documents. */
  lemma {:induction false} SplitProperties(s: string, sep: char)
    ensures SplitPieces(s, Split(s, sep), sep)
    decreases |s|
  {
    if s != [] {
      var t := Split(s[1..], sep);
      SplitProperties(s[1..], sep);
      SplitStepNoSeparator(s[0], t, sep);
      SplitStepLastPiece(s, t, sep);
    }
  }

  lemma SplitStepNoSeparator(c: char, t: seq<string>, sep: char)
    requires |t| >= 1 && forall i :: 0 <= i < |t| ==> sep !in t[i]
    ensures var r := SplitStep(c, t, sep); forall i :: 0 <= i < |r| ==> sep !in r[i]
  {
    var r := SplitStep(c, t, sep);
    if c == sep {
      assert forall i :: 1 <= i < |r| ==> r[i] == t[i - 1];
    } else {
      assert forall i :: 1 <= i < |r| ==> r[i] == t[i];
    }
  }

  lemma SplitStepLastPiece(s: string, t: seq<string>, sep: char)
    requires |s| > 0 && |t| >= 1 && LastPiece(s[1..], t[|t| - 1], sep)
    requires |t| > 1 ==> |t[|t| - 1]| < |s| - 1
    requires |t| == 1 ==> t[0] == s[1..]
    ensures var r := SplitStep(s[0], t, sep); LastPiece(s, r[|r| - 1], sep)
    ensures var r := SplitStep(s[0], t, sep); |r| > 1 ==> |r[|r| - 1]| < |s|
    ensures var r := SplitStep(s[0], t, sep); |r| == 1 ==> r[0] == s
  {
    var r := SplitStep(s[0], t, sep);
    LastPieceShift(s, t[|t| - 1], sep);
    if s[0] == sep {
      assert r[|r| - 1] == t[|t| - 1];
    } else if |t| == 1 {
      assert r == [[s[0]] + t[0]];
      assert [s[0]] + s[1..] == s;
    } else {
      assert r[|r| - 1] == t[|t| - 1];
    }
  }

  /** The last piece of `s[1..]` is the last piece of `s` unless it is all of `s[1..]`. */
  lemma LastPieceShift(s: string, last: string, sep: char)
    requires |s| > 0 && LastPiece(s[1..], last, sep)
    ensures |last| < |s| - 1 ==> LastPiece(s, last, sep)
    ensures |last| == |s| - 1 && s[0] == sep ==> LastPiece(s, last, sep)
    ensures |last| == |s| - 1 && s[0] != sep ==> LastPiece(s, [s[0]] + last, sep)
  {
    assert s[1..][|s| - 1 - |last|..] == s[|s| - |last|..];
    if |last| < |s| - 1 {
      assert s[1..][|s| - 1 - |last| - 1] == s[|s| - |last| - 1];
    } else {
      assert [s[0]] + last == s;
    }
  }

  /** The pieces of a split, put back together with the separator between them. */
  function Join(pieces: seq<string>, sep: char): string
    requires |pieces| >= 1
  {
    if |pieces| == 1 then pieces[0] else pieces[0] + [sep] + Join(pieces[1..], sep)
  }

  /** Split and Join are inverse: joining the pieces gives back the string. */
  lemma {:induction false} SplitJoin(s: string, sep: char)
    ensures Join(Split(s, sep), sep) == s
    decreases |s|
  {
    if s != [] {
      var t := Split(s[1..], sep);
      SplitJoin(s[1..], sep);
      if s[0] == sep {
        assert Split(s, sep) == [[]] + t;
        JoinAddEmpty(t, sep);
      } else {
        assert Split(s, sep) == [[s[0]] + t[0]] + t[1..];
        JoinExtendFirst(s[0], t, sep);
      }
      assert [s[0]] + s[1..] == s;
    }
  }

  /** A new empty first piece puts a separator in front of the joined string. */
  lemma JoinAddEmpty(t: seq<string>, sep: char)
    requires |t| >= 1
    ensures Join([[]] + t, sep) == [sep] + Join(t, sep)
  {
    assert ([[]] + t)[1..] == t;
  }

  /** Prepending a character to the first piece prepends it to the joined string. */
  lemma JoinExtendFirst(c: char, t: seq<string>, sep: char)
    requires |t| >= 1
    ensures Join([[c] + t[0]] + t[1..], sep) == [c] + Join(t, sep)
  {
    var r := [[c] + t[0]] + t[1..];
    if |t| > 1 {
      assert r[1..] == t[1..];
      assert ([c] + t[0]) + [sep] + Join(t[1..], sep) == [c] + (t[0] + [sep] + Join(t[1..], sep));
    }
  }

  /** A string has only one last piece. */
  lemma LastPieceUnique(s: string, x: string, y: string, sep: char)
    requires LastPiece(s, x, sep) && LastPiece(s, y, sep)
    ensures x == y
  {
  }

  /** The last piece of a split is everything after the last separator. */
  lemma LastPieceAfterSeparator(a: string, b: string, sep: char)
    requires sep !in b
    ensures var r := Split(a + [sep] + b, sep); r[|r| - 1] == b
  {
    var s := a + [sep] + b;
    SuffixAfterSeparator(a, b, sep);
    SplitProperties(s, sep);
    var r := Split(s, sep);
    LastPieceUnique(s, r[|r| - 1], b, sep);
  }

  /** What follows the last separator is the last piece. */
  lemma SuffixAfterSeparator(a: string, b: string, sep: char)
    requires sep !in b
    ensures LastPiece(a + [sep] + b, b, sep)
  {
    var s := a + [sep] + b;
    assert s[|s| - |b| - 1] == sep;
    assert s[|s| - |b|..] == b;
    forall i | |s| - |b| <= i < |s| ensures s[i] != sep {
      assert s[i] == b[i - (|s| - |b|)];
    }
  }

  // byte.TryParse with the default number style

  predicate IsDigit(c: char)
  {
    '0' <= c <= '9'
  }

  /** The white space the number parser skips around a number. */
  predicate IsWhite(c: char)
  {
    c == ' ' || '\t' <= c <= '\r'
  }

  predicate AllDigits(s: string)
  {
    forall i :: 0 <= i < |s| ==> IsDigit(s[i])
  }

  /** The value of a string of decimal digits. */
  function DigitsValue(s: string): nat
    requires AllDigits(s)
    decreases |s|
  {
    if s == [] then 0 else DigitsValue(s[..|s| - 1]) * 10 + (s[|s| - 1] as int - '0' as int)
  }

  function TrimStart(s: string): (r: string)
    ensures |r| <= |s| && r == s[|s| - |r|..]
    ensures r == [] || !IsWhite(r[0])
    ensures |s| > 0 && !IsWhite(s[0]) ==> r == s
    decreases |s|
  {
    if |s| > 0 && IsWhite(s[0]) then TrimStart(s[1..]) else s
  }

  function TrimEnd(s: string): (r: string)
    ensures |r| <= |s| && r == s[..|r|]
    ensures r == [] || !IsWhite(r[|r| - 1])
    ensures |s| > 0 && !IsWhite(s[|s| - 1]) ==> r == s
    decreases |s|
  {
    if |s| > 0 && IsWhite(s[|s| - 1]) then TrimEnd(s[..|s| - 1]) else s
  }

  /** `byte.TryParse(s, out v)`: optional white space, an optional sign, one or more
      decimal digits, optional white space; values above 255 fail, and a minus sign is
      only accepted on a zero value. */
  function TryParseByte(s: string): (r: Option<byte>)
    ensures |s| > 0 && AllDigits(s) ==>
      r == if DigitsValue(s) < 256 then Some(DigitsValue(s)) else None
    ensures (forall i :: 0 <= i < |s| ==> !IsDigit(s[i])) ==> r.None?
  {
    ParseTrimmed(Trim(s))
  }

  /** `s.Trim()`: the white space at both ends removed. A string of digits has none,
      and no digit is ever added. */
  function Trim(s: string): (t: string)
    ensures |s| > 0 && AllDigits(s) ==> t == s
    ensures (forall i :: 0 <= i < |s| ==> !IsDigit(s[i])) ==> forall i :: 0 <= i < |t| ==> !IsDigit(t[i])
  {
    TrimOfDigits(s);
    TrimKeepsNoDigit(s);
    TrimEnd(TrimStart(s))
  }

  /** The number in `t` once the white space around it is gone. */
  function ParseTrimmed(t: string): (r: Option<byte>)
    ensures |t| > 0 && AllDigits(t) ==>
      r == if DigitsValue(t) < 256 then Some(DigitsValue(t)) else None
    ensures (forall i :: 0 <= i < |t| ==> !IsDigit(t[i])) ==> r.None?
  {
    if |t| > 0 && (t[0] == '+' || t[0] == '-') then
      var digits := t[1..];
      if |digits| > 0 && AllDigits(digits) then
        assert IsDigit(t[1]);
        var v := DigitsValue(digits);
        if t[0] == '-' then (if v == 0 then Some(0) else None)
        else if v < 256 then Some(v) else None
      else None
    else if |t| > 0 && AllDigits(t) then
      if DigitsValue(t) < 256 then Some(DigitsValue(t)) else None
    else None
  }

  /** Digits have no white space around them to trim. */
  lemma TrimOfDigits(s: string)
    ensures |s| > 0 && AllDigits(s) ==> TrimEnd(TrimStart(s)) == s
  {
    if |s| > 0 && AllDigits(s) {
      assert IsDigit(s[0]) && IsDigit(s[|s| - 1]);
      assert TrimStart(s) == s;
    }
  }

  /** Trimming a string with no digit leaves a string with no digit. */
  lemma TrimKeepsNoDigit(s: string)
    ensures (forall i :: 0 <= i < |s| ==> !IsDigit(s[i])) ==>
      var t := TrimEnd(TrimStart(s)); forall i :: 0 <= i < |t| ==> !IsDigit(t[i])
  {
    var u := TrimStart(s);
    var t := TrimEnd(u);
    forall i | 0 <= i < |t| ensures t[i] == s[|s| - |u| + i] {
      assert t[i] == u[i];
    }
  }

  /** The decimal spelling of `n`, without sign or leading zeros. */
  function Decimal(n: nat): (r: string)
    ensures |r| > 0 && AllDigits(r) && DigitsValue(r) == n
  {
    var d := ['0' + (n % 10) as char];
    if n < 10 then d
    else
      var r := Decimal(n / 10) + d;
      assert r[..|r| - 1] == Decimal(n / 10);
      r
  }
}
