/** The instance id Unity's copy numbering leaves in an object name, as the entity
    manager reads it back. */
module EnemyIds {
  import opened Common
  import opened Strings

  /** The last space-separated token of `s`: everything after its last space. */
  function LastToken(s: string): (r: string)
    ensures |r| <= |s| && r == s[|s| - |r|..] && ' ' !in r
  {
    var pieces := Split(s, ' ');
    SplitProperties(s, ' ');
    var r := pieces[|pieces| - 1];
    assert forall i :: 0 <= i < |r| ==> r[i] == s[|s| - |r| + i];
    r
  }

  /** The token with every '(' and then every ')' removed. */
  function StripParens(token: string): string
  {
    RemoveAll(RemoveAll(token, "("), ")")
  }

  /** The token holds no decimal digit. */
  predicate NoDigit(s: string)
  {
    forall i :: 0 <= i < |s| ==> !IsDigit(s[i])
  }

  /** The instance id in what is left of an object name: the last space-separated
      token, with parentheses removed, read as a byte; 0 when it does not parse. */
  function GetEnemyId(leftover: string): (id: byte)
    ensures NoDigit(LastToken(leftover)) ==> id == 0
    ensures NoDigit(leftover) ==> id == 0
  {
    var last := LastToken(leftover);
    assert forall i :: 0 <= i < |last| ==> last[i] in leftover by {
      forall i | 0 <= i < |last| ensures last[i] in leftover {
        assert last[i] == leftover[|leftover| - |last| + i];
      }
    }
    var stripped := StripParens(last);
    assert NoDigit(last) ==> NoDigit(stripped) by {
      var inner := RemoveAll(last, "(");
      assert forall i :: 0 <= i < |inner| ==> inner[i] in last;
      assert forall i :: 0 <= i < |stripped| ==> stripped[i] in inner;
    }
    match TryParseByte(stripped)
    case Some(v) => v
    case None => 0
  }

  /** The token after a final space is the last token, whatever comes before. */
  lemma LastTokenAfterSpace(prefix: string, token: string)
    requires ' ' !in token
    ensures LastToken(prefix + [' '] + token) == token
  {
    LastPieceAfterSeparator(prefix, token, ' ');
  }

  /** A string of digits holds no other character. */
  lemma NotInDigits(d: string, c: char)
    requires AllDigits(d) && !IsDigit(c)
    ensures c !in d
  {
    assert forall i :: 0 <= i < |d| ==> IsDigit(d[i]);
  }

  /** A string of digits has no space and no parenthesis. */
  lemma DigitsArePlain(d: string)
    requires AllDigits(d)
    ensures ' ' !in d && '(' !in d && ')' !in d
  {
    NotInDigits(d, ' ');
    NotInDigits(d, '(');
    NotInDigits(d, ')');
  }

  /** Removing the parentheses of "(d)" leaves the digits d. */
  lemma StripParensAround(d: string)
    requires AllDigits(d)
    ensures StripParens("(" + d + ")") == d
  {
    DigitsArePlain(d);
    DropOpenParen(d + ")");
    assert "(" + d + ")" == "(" + (d + ")");
    DropCloseParen(d);
  }

  /** A leading '(' is the only one removed from "(" + s when s has none. */
  lemma DropOpenParen(s: string)
    requires '(' !in s
    ensures RemoveAll("(" + s, "(") == s
  {
    RemovePrefix("(", s);
    MissingChar(s, "(", 0);
  }

  /** A trailing ')' is the only one removed from s + ")" when s has none. */
  lemma DropCloseParen(s: string)
    requires ')' !in s
    ensures RemoveAll(s + ")", ")") == s
  {
    RemoveCharAppend(s, ")", ')');
    MissingChar(s, ")", 0);
    assert RemoveAll(")", ")") == [];
  }

  /** Removing parentheses from bare digits changes nothing. */
  lemma StripParensDigits(d: string)
    requires AllDigits(d)
    ensures StripParens(d) == d
  {
    DigitsArePlain(d);
    MissingChar(d, "(", 0);
    MissingChar(d, ")", 0);
  }

  /** Unity's numbering of copies round-trips: a name ending in " (n)" yields id n for
      every n that fits in a byte, whatever comes before it. */
  lemma IdRoundTrip(prefix: string, n: nat)
    requires n < 256
    ensures GetEnemyId(prefix + " (" + Decimal(n) + ")") == n
  {
    var d := Decimal(n);
    DigitsArePlain(d);
    var token := "(" + d + ")";
    assert ' ' !in token;
    assert prefix + " (" + d + ")" == prefix + [' '] + token;
    LastTokenAfterSpace(prefix, token);
    StripParensAround(d);
  }

  /** " (n)" on its own, what is left of a copy's name once its type is removed,
      yields id n. */
  lemma ParenthesisedId(n: nat)
    requires n < 256
    ensures GetEnemyId(" (" + Decimal(n) + ")") == n
  {
    IdRoundTrip("", n);
    assert "" + " (" == " (";
  }

  /** A name ending in " n" (without parentheses) yields id n as well. */
  lemma IdRoundTripPlain(prefix: string, n: nat)
    requires n < 256
    ensures GetEnemyId(prefix + " " + Decimal(n)) == n
  {
    var d := Decimal(n);
    DigitsArePlain(d);
    assert prefix + " " + d == prefix + [' '] + d;
    LastTokenAfterSpace(prefix, d);
    StripParensDigits(d);
  }

  /** A copy number that does not fit in a byte fails to parse, and the id stays 0:
      a name ending in " (n)" with n above 255 yields 0, whatever comes before it. */
  lemma IdOverflowGivesZero(prefix: string, n: nat)
    requires n >= 256
    ensures GetEnemyId(prefix + " (" + Decimal(n) + ")") == 0
  {
    var d := Decimal(n);
    DigitsArePlain(d);
    var token := "(" + d + ")";
    assert ' ' !in token;
    assert prefix + " (" + d + ")" == prefix + [' '] + token;
    LastTokenAfterSpace(prefix, token);
    StripParensAround(d);
  }

  /** The same for a number written without parentheses: " n" above 255 yields 0. */
  lemma IdOverflowPlainGivesZero(prefix: string, n: nat)
    requires n >= 256
    ensures GetEnemyId(prefix + " " + Decimal(n)) == 0
  {
    var d := Decimal(n);
    DigitsArePlain(d);
    assert prefix + " " + d == prefix + [' '] + d;
    LastTokenAfterSpace(prefix, d);
    StripParensDigits(d);
  }

  /** Only the last token is read: when it holds no digit the id is 0, even if the
      text before it holds a number. */
  lemma NoNumberNoId(prefix: string, token: string)
    requires ' ' !in token && NoDigit(token)
    ensures GetEnemyId(prefix + [' '] + token) == 0
  {
    LastTokenAfterSpace(prefix, token);
  }
}
