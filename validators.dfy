/**
  The request validators of the two controllers that carry real logic: the
  domain pattern `^[a-zA-Z0-9.-]+\.[a-zA-Z]{2,}$`, the username pattern
  `^[a-zA-Z0-9_-]+$`, and the `in:8.1,8.2,8.3` rule on PHP versions.
*/
module Validators {

  predicate Letter(c: char)
  {
    'a' <= c <= 'z' || 'A' <= c <= 'Z'
  }

  predicate Digit(c: char)
  {
    '0' <= c <= '9'
  }

  /** The class `[a-zA-Z0-9.-]`. */
  predicate DomainChar(c: char)
  {
    Letter(c) || Digit(c) || c == '.' || c == '-'
  }

  /** The class `[a-zA-Z0-9_-]`. */
  predicate UsernameChar(c: char)
  {
    Letter(c) || Digit(c) || c == '_' || c == '-'
  }

  // ---------------------------------------------------------------- domains

  /**
    The dot at index `i` splits `s` the way the domain pattern does: everything
    before it is drawn from `[a-zA-Z0-9.-]` and everything after it is a letter.
  */
  predicate DomainSplitAt(s: string, i: int)
  {
    && 0 <= i < |s|
    && s[i] == '.'
    && (forall k :: 0 <= k < i ==> DomainChar(s[k]))
    && (forall k :: i < k < |s| ==> Letter(s[k]))
  }

  /**
    The domain pattern read as a regular expression over the whole string: a
    non-empty run of `[a-zA-Z0-9.-]`, a literal dot, then at least two letters.
  */
  ghost predicate MatchesDomainPattern(s: string)
  {
    exists i :: 1 <= i <= |s| - 3 && DomainSplitAt(s, i)
  }

  /** Index of the last '.' in `s`, or -1 when there is none. */
  function LastDot(s: string): (r: int)
    ensures -1 <= r < |s|
    ensures r >= 0 ==> s[r] == '.'
    ensures forall k :: r < k < |s| ==> s[k] != '.'
  {
    if |s| == 0 then -1
    else if s[|s| - 1] == '.' then |s| - 1
    else LastDot(s[..|s| - 1])
  }

  /**
    The domain check as a decision procedure: since a letter is never a dot,
    the only dot the pattern can split at is the last one.
  */
  predicate IsValidDomain(s: string)
  {
    var i := LastDot(s);
    1 <= i <= |s| - 3 && DomainSplitAt(s, i)
  }

  /** The decision procedure accepts exactly the strings the pattern matches. */
  lemma DomainCheckMatchesPattern(s: string)
    ensures IsValidDomain(s) <==> MatchesDomainPattern(s)
  {
    if MatchesDomainPattern(s) {
      var j :| 1 <= j <= |s| - 3 && DomainSplitAt(s, j);
      assert forall k :: j < k < |s| ==> s[k] != '.';
      assert LastDot(s) == j;
    }
  }

  /**
    A valid domain names a plain file under the nginx site directories: it has
    no '/', and it is neither "." nor "..".
  */
  lemma ValidDomainIsPlainFileName(d: string)
    requires IsValidDomain(d)
    ensures forall k :: 0 <= k < |d| ==> d[k] != '/'
    ensures |d| >= 4 && d != "." && d != ".."
  {
    var i := LastDot(d);
    forall k | 0 <= k < |d|
      ensures d[k] != '/'
    {
      assert k < i ==> DomainChar(d[k]);
      assert k > i ==> Letter(d[k]);
    }
  }

  // -------------------------------------------------------------- usernames

  /** The username pattern `^[a-zA-Z0-9_-]+$`. */
  predicate IsValidUsername(s: string)
  {
    |s| > 0 && forall k :: 0 <= k < |s| ==> UsernameChar(s[k])
  }

  /** The home directory an account is created with: always `/home/` followed by the username. */
  function HomeDirectory(username: string): (home: string)
    ensures |home| == 6 + |username| && home[..6] == "/home/"
    ensures home[6..] == username
  {
    "/home/" + username
  }

  /**
    A valid username keeps its home directory a direct child of `/home`: the
    name contains no '/', and it is neither "." nor "..".
  */
  lemma HomeDirectoryStaysInHome(username: string)
    requires IsValidUsername(username)
    ensures forall k :: 6 <= k < |HomeDirectory(username)| ==> HomeDirectory(username)[k] != '/'
    ensures username != "." && username != ".."
  {
    var home := HomeDirectory(username);
    forall k | 6 <= k < |home|
      ensures home[k] != '/'
    {
      assert home[k] == username[k - 6];
      assert UsernameChar(username[k - 6]);
    }
    assert UsernameChar(username[0]);
  }

  /** The `in:active,inactive,maintenance` rule on a vhost's status. */
  const Statuses: set<string> := {"active", "inactive", "maintenance"}

  // ------------------------------------------------------------ PHP versions

  const PhpVersions: set<string> := {"8.1", "8.2", "8.3"}

  /** The intended reading of `in:8.1,8.2,8.3`: one of the three listed strings, exactly. */
  predicate PhpVersionAllowed(v: string)
  {
    v in PhpVersions
  }

  /** Position of the first '.' in `s`, or |s| when there is none. */
  function DotPos(s: string): (r: nat)
    ensures r <= |s|
    ensures r < |s| ==> s[r] == '.'
    ensures forall k :: 0 <= k < r ==> s[k] != '.'
  {
    if |s| == 0 || s[0] == '.' then 0 else 1 + DotPos(s[1..])
  }

  predicate AllDigits(s: string)
  {
    forall k :: 0 <= k < |s| ==> Digit(s[k])
  }

  /**
    `digits` or `digits.digits`: the plain decimal numerals among the strings
    PHP treats as numeric.
  */
  predicate PlainNumeral(s: string)
  {
    var p := DotPos(s);
    && p > 0
    && AllDigits(s[..p])
    && (p == |s| || (p < |s| - 1 && AllDigits(s[p + 1..])))
  }

  function DigitsValue(s: string): nat
  {
    if |s| == 0 then 0
    else
      var d := s[|s| - 1] as int - '0' as int;
      DigitsValue(s[..|s| - 1]) * 10 + (if 0 <= d then d else 0)
  }

  function IntegerPart(s: string): string
  {
    s[..DotPos(s)]
  }

  function FractionPart(s: string): string
  {
    if DotPos(s) < |s| then s[DotPos(s) + 1..] else ""
  }

  function WithoutTrailingZeros(s: string): string
  {
    if |s| > 0 && s[|s| - 1] == '0' then WithoutTrailingZeros(s[..|s| - 1]) else s
  }

  /** Two plain numerals denote the same number. */
  predicate SameNumber(x: string, y: string)
  {
    && DigitsValue(IntegerPart(x)) == DigitsValue(IntegerPart(y))
    && WithoutTrailingZeros(FractionPart(x)) == WithoutTrailingZeros(FractionPart(y))
  }

  /**
    PHP 8's `==` between two strings, on plain numerals: two numeric strings
    are compared as numbers, any other pair as strings.
  */
  predicate LooseEquals(x: string, y: string)
  {
    x == y || (PlainNumeral(x) && PlainNumeral(y) && SameNumber(x, y))
  }

  /**
    `in:8.1,8.2,8.3` as the framework evaluates it: a non-strict `in_array`,
    so the value only has to be loosely equal to one of the listed strings.
    Only unsigned plain decimals count as numeric here, compared exactly. PHP
    also reads signs, surrounding whitespace and exponents ("+8.1", "8.1e0"),
    and compares numeric strings as doubles, so a fraction that rounds to
    8.1 ("8.10000000000000000001") passes too; this under-approximates what
    the framework lets through.
  */
  predicate PhpVersionAllowedAsWritten(v: string)
  {
    LooseEquals(v, "8.1") || LooseEquals(v, "8.2") || LooseEquals(v, "8.3")
  }

  function Zeros(n: nat): (z: string)
    ensures |z| == n && forall k :: 0 <= k < n ==> z[k] == '0'
  {
    if n == 0 then "" else Zeros(n - 1) + "0"
  }

  lemma {:induction false} WithoutTrailingZerosOfPadding(s: string, n: nat)
    requires |s| > 0 && s[|s| - 1] != '0'
    ensures WithoutTrailingZeros(s + Zeros(n)) == s
  {
    if n > 0 {
      assert (s + Zeros(n))[..|s + Zeros(n)| - 1] == s + Zeros(n - 1);
      WithoutTrailingZerosOfPadding(s, n - 1);
    }
  }

  /**
    The loose check lets through every zero-padded spelling of 8.1 ("8.10",
    "8.100", ...), none of which is a listed version.
  */
  lemma PaddedVersionPassesLooseCheck(n: nat)
    requires n > 0
    ensures PhpVersionAllowedAsWritten("8.1" + Zeros(n))
    ensures !PhpVersionAllowed("8.1" + Zeros(n))
  {
    var v := "8.1" + Zeros(n);
    assert v[0] == '8' && v[1] == '.' && v[2] == '1';
    assert DotPos(v) == 1 by {
      assert DotPos(v) == 1 + DotPos(v[1..]);
    }
    assert IntegerPart(v) == "8";
    assert FractionPart(v) == "1" + Zeros(n);
    assert AllDigits(v[2..]) by {
      assert v[2..] == "1" + Zeros(n);
    }
    WithoutTrailingZerosOfPadding("1", n);
    assert DotPos("8.1") == 1 by {
      assert DotPos("8.1") == 1 + DotPos(".1");
    }
    assert IntegerPart("8.1") == "8";
    assert FractionPart("8.1") == "1";
    assert DigitsValue("8") == 8;
    assert WithoutTrailingZeros("1") == "1";
    assert PlainNumeral("8.1");
    assert LooseEquals(v, "8.1");
    assert |v| > 3;
  }

  /** The corrected check only narrows the framework's: whatever it accepts, the loose check accepts too. */
  lemma AllowedVersionPassesLooseCheck(v: string)
    requires PhpVersionAllowed(v)
    ensures PhpVersionAllowedAsWritten(v)
    ensures v == "8.1" || v == "8.2" || v == "8.3"
  {
  }
}
