/** Text primitives of the line protocol: the Java library calls the game
    uses, String.split (with and without a limit), String.join, String.trim,
    Integer.parseInt and Integer.toString, for the ASCII text the protocol
    carries (Integer.parseInt's other Unicode digits are not read). */
module Wire {

  datatype Option<+T> = None | Some(value: T)

  /** Java string concatenation renders a null String as "null". */
  function OrNull(s: Option<string>): string
  {
    if s.Some? then s.value else "null"
  }

  // ---------------------------------------------------------------------------
  // Joining and splitting
  // ---------------------------------------------------------------------------

  /** String.join(sep, parts) */
  function Join(parts: seq<string>, sep: string): string
  {
    if |parts| == 0 then ""
    else if |parts| == 1 then parts[0]
    else parts[0] + sep + Join(parts[1..], sep)
  }

  /** Every part followed by sep: what a StringBuilder loop appending
      `part + sep` produces. */
  function Terminated(parts: seq<string>, sep: string): string
  {
    if |parts| == 0 then "" else Terminated(parts[..|parts| - 1], sep) + parts[|parts| - 1] + sep
  }

  /** The pieces of s between the leftmost non-overlapping occurrences of sep,
      scanning left to right as java.util.regex does, empty pieces included. */
  function Pieces(s: string, sep: string): (r: seq<string>)
    requires |sep| > 0
    ensures |r| >= 1
    ensures Join(r, sep) == s
    ensures |r| == 1 ==> r[0] == s
    decreases |s|
  {
    if |s| < |sep| then [s]
    else if s[..|sep|] == sep then
      var rest := Pieces(s[|sep|..], sep);
      JoinCons("", rest, sep);
      [""] + rest
    else
      var rest := Pieces(s[1..], sep);
      JoinHeadChar(s[0], rest, sep);
      [[s[0]] + rest[0]] + rest[1..]
  }

  lemma JoinCons(p: string, rest: seq<string>, sep: string)
    requires |rest| >= 1
    ensures Join([p] + rest, sep) == p + sep + Join(rest, sep)
  {
    assert ([p] + rest)[1..] == rest;
  }

  lemma JoinHeadChar(c: char, rest: seq<string>, sep: string)
    requires |rest| >= 1
    ensures Join([[c] + rest[0]] + rest[1..], sep) == [c] + Join(rest, sep)
  {
    var r := [[c] + rest[0]] + rest[1..];
    if |rest| > 1 {
      assert r[1..] == rest[1..];
    }
  }

  /** Java drops trailing empty strings from the result of split(regex). */
  function DropTrailingEmpty(xs: seq<string>): (r: seq<string>)
    ensures |r| <= |xs| && r == xs[..|r|]
    ensures |r| > 0 ==> r[|r| - 1] != ""
    ensures forall i :: |r| <= i < |xs| ==> xs[i] == ""
  {
    if |xs| > 0 && xs[|xs| - 1] == "" then DropTrailingEmpty(xs[..|xs| - 1]) else xs
  }

  /** s.split(sep) with limit 0: when sep does not occur the result is [s]
      (even for the empty string); otherwise trailing empty pieces are dropped. */
  function Split(s: string, sep: string): seq<string>
    requires |sep| > 0
  {
    var ps := Pieces(s, sep);
    if |ps| == 1 then ps else DropTrailingEmpty(ps)
  }

  /** s.split(sep, 2): the text before the first occurrence and everything
      after it, or [s] when sep does not occur. */
  function SplitFirst(s: string, sep: string): (r: seq<string>)
    requires |sep| > 0
    ensures 1 <= |r| <= 2
    ensures |r| == 1 ==> r[0] == s
    ensures |r| == 2 ==> s == r[0] + sep + r[1]
  {
    var ps := Pieces(s, sep);
    if |ps| == 1 then [s]
    else
      JoinCons(ps[0], ps[1..], sep);
      assert [ps[0]] + ps[1..] == ps;
      [ps[0], Join(ps[1..], sep)]
  }

  /** `parts.length > 1 ? parts[1] : ""` after a split with limit 2. */
  function Rest(parts: seq<string>): string
  {
    if |parts| > 1 then parts[1] else ""
  }

  /** Array access that throws ArrayIndexOutOfBoundsException past the end. */
  function At(parts: seq<string>, k: nat): Option<string>
  {
    if k < |parts| then Some(parts[k]) else None
  }

  function StartsWith(s: string, prefix: string): bool
  {
    |prefix| <= |s| && s[..|prefix|] == prefix
  }

  function Contains(s: string, sub: string): bool
    decreases |s|
  {
    StartsWith(s, sub) || (|s| > 0 && Contains(s[1..], sub))
  }

  lemma {:induction false} PiecesSingle(p: string, sep: string)
    requires |sep| == 1 && sep[0] !in p
    ensures Pieces(p, sep) == [p]
    decreases |p|
  {
    if |p| >= 1 {
      assert p[..1] != sep by { assert p[..1][0] == p[0]; }
      PiecesSingle(p[1..], sep);
      assert [p[0]] + p[1..] == p;
    }
  }

  lemma {:induction false} PiecesCut(p: string, sep: string, q: string)
    requires |sep| == 1 && sep[0] !in p
    ensures Pieces(p + sep + q, sep) == [p] + Pieces(q, sep)
    decreases |p|
  {
    var s := p + sep + q;
    if |p| == 0 {
      assert s[..1] == sep && s[1..] == q;
    } else {
      assert s[..1] != sep by { assert s[..1][0] == p[0]; }
      assert s[1..] == p[1..] + sep + q;
      PiecesCut(p[1..], sep, q);
      assert [s[0]] + p[1..] == p;
    }
  }

  /** With a one-character separator the first piece never contains it, and
      there is a single piece exactly when the separator does not occur. */
  lemma {:induction false} PiecesFirstChar(s: string, sep: string)
    requires |sep| == 1
    ensures sep[0] !in Pieces(s, sep)[0]
    ensures |Pieces(s, sep)| == 1 <==> sep[0] !in s
    decreases |s|
  {
    if |s| >= 1 {
      if s[..1] == sep {
        assert s[0] == sep[0];
      } else {
        assert s[..1] == [s[0]];
        PiecesFirstChar(s[1..], sep);
        assert s == [s[0]] + s[1..];
      }
    }
  }

  /** split(":", 2) cuts at the first occurrence: the head has no separator,
      and the line is the head, the separator and the rest. */
  lemma SplitFirstChar(s: string, sep: string)
    requires |sep| == 1
    ensures |SplitFirst(s, sep)| == 2 <==> sep[0] in s
    ensures sep[0] !in SplitFirst(s, sep)[0]
  {
    PiecesFirstChar(s, sep);
  }

  /** Cutting head + sep + rest at the first separator gives head and rest
      back when the head is free of it. */
  lemma SplitFirstOf(head: string, sep: string, rest: string)
    requires |sep| == 1 && sep[0] !in head
    ensures SplitFirst(head + sep + rest, sep) == [head, rest]
  {
    PiecesCut(head, sep, rest);
    var ps := Pieces(head + sep + rest, sep);
    assert ps[1..] == Pieces(rest, sep);
  }

  /** Splitting a join on a one-character separator that no part contains
      gives the parts back, empty ones included. */
  lemma {:induction false} PiecesOfJoin(parts: seq<string>, sep: string)
    requires |sep| == 1 && |parts| >= 1
    requires forall i :: 0 <= i < |parts| ==> sep[0] !in parts[i]
    ensures Pieces(Join(parts, sep), sep) == parts
    decreases |parts|
  {
    if |parts| == 1 {
      PiecesSingle(parts[0], sep);
    } else {
      PiecesOfJoin(parts[1..], sep);
      PiecesCut(parts[0], sep, Join(parts[1..], sep));
      assert [parts[0]] + parts[1..] == parts;
    }
  }

  /** Java's split of a join gives the parts back when no part contains the
      one-character separator and the last part is not empty. */
  lemma SplitOfJoin(parts: seq<string>, sep: string)
    requires |sep| == 1 && |parts| >= 1 && parts[|parts| - 1] != ""
    requires forall i :: 0 <= i < |parts| ==> sep[0] !in parts[i]
    ensures Split(Join(parts, sep), sep) == parts
  {
    PiecesOfJoin(parts, sep);
  }

  lemma {:induction false} TerminatedIsJoin(parts: seq<string>, sep: string)
    requires |parts| >= 1
    ensures Terminated(parts, sep) == Join(parts, sep) + sep
    decreases |parts|
  {
    var init, last := parts[..|parts| - 1], parts[|parts| - 1];
    if |parts| == 1 {
      assert Terminated(parts, sep) == Terminated([], sep) + last + sep;
    } else {
      TerminatedIsJoin(init, sep);
      JoinSnoc(init, last, sep);
      assert init + [last] == parts;
    }
  }

  /** Removing the final separator from a terminated sequence of parts
      leaves the joined parts. */
  lemma TerminatedDropSep(parts: seq<string>, sep: string)
    requires |sep| == 1
    ensures |Terminated(parts, sep)| == 0 <==> |parts| == 0
    ensures |parts| > 0 ==> Terminated(parts, sep)[..|Terminated(parts, sep)| - 1] == Join(parts, sep)
  {
    if |parts| > 0 {
      TerminatedIsJoin(parts, sep);
      var j := Join(parts, sep);
      assert (j + sep)[..|j|] == j;
    }
  }

  lemma {:induction false} JoinSnoc(parts: seq<string>, last: string, sep: string)
    requires |parts| >= 1
    ensures Join(parts + [last], sep) == Join(parts, sep) + sep + last
    decreases |parts|
  {
    if |parts| == 1 {
      assert parts + [last] == [parts[0], last];
      assert [parts[0], last][1..] == [last];
    } else {
      assert (parts + [last])[1..] == parts[1..] + [last];
      JoinSnoc(parts[1..], last, sep);
    }
  }

  // ---------------------------------------------------------------------------
  // String.trim
  // ---------------------------------------------------------------------------

  /** String.trim removes every leading and trailing char up to U+0020. */
  predicate IsTrimmed(c: char)
  {
    c <= ' '
  }

  function TrimStart(s: string): (r: string)
    ensures |r| <= |s| && r == s[|s| - |r|..]
    ensures |r| > 0 ==> !IsTrimmed(r[0])
    ensures forall i :: 0 <= i < |s| - |r| ==> IsTrimmed(s[i])
  {
    if |s| > 0 && IsTrimmed(s[0]) then TrimStart(s[1..]) else s
  }

  function TrimEnd(s: string): (r: string)
    ensures |r| <= |s| && r == s[..|r|]
    ensures |r| > 0 ==> !IsTrimmed(r[|r| - 1])
    ensures forall i :: |r| <= i < |s| ==> IsTrimmed(s[i])
  {
    if |s| > 0 && IsTrimmed(s[|s| - 1]) then TrimEnd(s[..|s| - 1]) else s
  }

  function Trim(s: string): string
  {
    TrimEnd(TrimStart(s))
  }

  lemma {:induction false} BlankTrimStart(s: string)
    requires forall i :: 0 <= i < |s| ==> IsTrimmed(s[i])
    ensures TrimStart(s) == ""
  {
    if |s| > 0 {
      assert IsTrimmed(s[0]);
      var rest := s[1..];
      assert forall i :: 0 <= i < |rest| ==> rest[i] == s[i + 1];
      BlankTrimStart(rest);
    }
  }

  /** trim() is the identity on a string that starts and ends with visible
      characters. */
  lemma TrimIdentity(s: string)
    requires |s| > 0 && !IsTrimmed(s[0]) && !IsTrimmed(s[|s| - 1])
    ensures Trim(s) == s
  {
    assert TrimStart(s) == s;
  }

  /** trim() yields "" exactly for blank strings. */
  lemma TrimBlank(s: string)
    ensures Trim(s) == "" <==> forall i :: 0 <= i < |s| ==> IsTrimmed(s[i])
  {
    var t := TrimStart(s);
    if forall i :: 0 <= i < |s| ==> IsTrimmed(s[i]) {
      BlankTrimStart(s);
      assert TrimEnd(t) == t;
    } else {
      var k :| 0 <= k < |s| && !IsTrimmed(s[k]);
      var j := k - (|s| - |t|);
      assert 0 <= j < |t| && t[j] == s[k];
      assert |TrimEnd(t)| > j;
    }
  }

  // ---------------------------------------------------------------------------
  // Integer.parseInt and Integer.toString
  // ---------------------------------------------------------------------------

  const IntMin: int := -0x8000_0000
  const IntMax: int := 0x7fff_ffff

  predicate IsInt32(n: int)
  {
    IntMin <= n <= IntMax
  }

  /** A Java `(int)` cast of a long: two's-complement wrap-around. */
  function ToInt32(n: int): (r: int)
    ensures IsInt32(r)
    ensures IsInt32(n) ==> r == n
  {
    (n - IntMin) % 0x1_0000_0000 + IntMin
  }

  /** Java's `/` on integers: the quotient truncated toward zero. */
  function JavaDiv(a: int, b: int): int
    requires b > 0
  {
    if a >= 0 then a / b else -((-a) / b)
  }

  predicate IsDigit(c: char)
  {
    '0' <= c <= '9'
  }

  predicate AllDigits(s: string)
  {
    forall i :: 0 <= i < |s| ==> IsDigit(s[i])
  }

  function DigitsValue(ds: string): nat
    requires AllDigits(ds)
    decreases |ds|
  {
    if |ds| == 0 then 0
    else DigitsValue(ds[..|ds| - 1]) * 10 + (ds[|ds| - 1] as int - '0' as int)
  }

  /** Integer.parseInt: an optional sign, at least one ASCII digit, and a value
      that fits in 32 bits; None stands for NumberFormatException. */
  function ParseInt(s: string): (r: Option<int>)
    ensures r.Some? ==> IsInt32(r.value)
  {
    if |s| == 0 then None
    else
      var body := if s[0] == '-' || s[0] == '+' then s[1..] else s;
      if |body| == 0 || !AllDigits(body) then None
      else
        var v: int := if s[0] == '-' then -(DigitsValue(body) as int) else DigitsValue(body);
        if IsInt32(v) then Some(v) else None
  }

  function DigitChar(d: nat): (c: char)
    requires d < 10
    ensures IsDigit(c)
  {
    ('0' as int + d) as char
  }

  /** The decimal digits of a natural number. */
  function NatToString(n: nat): (r: string)
    ensures |r| > 0
    decreases n
  {
    if n < 10 then [DigitChar(n)] else NatToString(n / 10) + [DigitChar(n % 10)]
  }

  /** Integer.toString, which is also what `"" + n` produces. */
  function IntToString(n: int): (r: string)
    ensures |r| > 0
  {
    if n < 0 then "-" + NatToString(-n) else NatToString(n)
  }

  /** The decimal form of a natural number is made of digits only. */
  lemma {:induction false} NatToStringDigits(n: nat)
    ensures AllDigits(NatToString(n))
    decreases n
  {
    if n >= 10 {
      NatToStringDigits(n / 10);
      var r := NatToString(n);
      assert r == NatToString(n / 10) + [DigitChar(n % 10)];
    }
  }

  /** A printed number is made of digits and at most a leading '-'. */
  lemma IntToStringChars(n: int)
    ensures forall i :: 0 <= i < |IntToString(n)| ==> IsDigit(IntToString(n)[i]) || IntToString(n)[i] == '-'
    ensures IsDigit(IntToString(n)[0]) || IntToString(n)[0] == '-'
  {
    var r := IntToString(n);
    NatToStringDigits(if n < 0 then -n else n);
    if n < 0 {
      var d := NatToString(-n);
      assert r == "-" + d;
      forall i | 0 <= i < |r| ensures IsDigit(r[i]) || r[i] == '-' {
        if i > 0 { assert r[i] == d[i - 1]; }
      }
    }
  }

  lemma {:induction false} DigitsOfNatToString(n: nat)
    ensures AllDigits(NatToString(n)) && DigitsValue(NatToString(n)) == n
    decreases n
  {
    NatToStringDigits(n);
    var r := NatToString(n);
    if n >= 10 {
      DigitsOfNatToString(n / 10);
      assert r[..|r| - 1] == NatToString(n / 10);
    }
  }

  /** Integer.parseInt undoes Integer.toString on every 32-bit value. */
  lemma ParseIntOfIntToString(n: int)
    requires IsInt32(n)
    ensures ParseInt(IntToString(n)) == Some(n)
  {
    var s := IntToString(n);
    if n < 0 {
      var digits := NatToString(-n);
      DigitsOfNatToString(-n);
      assert s == "-" + digits && s[0] == '-' && s[1..] == digits;
      assert AllDigits(digits) && |digits| > 0;
    } else {
      var digits := NatToString(n);
      DigitsOfNatToString(n);
      assert s == digits && AllDigits(digits);
      assert IsDigit(s[0]);
    }
  }

  /** Distinct numbers print differently. */
  lemma IntToStringInjective(a: int, b: int)
    requires IntToString(a) == IntToString(b)
    ensures a == b
  {
    var s := IntToString(a);
    NatToStringDigits(if a < 0 then -a else a);
    NatToStringDigits(if b < 0 then -b else b);
    assert a < 0 <==> s[0] == '-' by { assert a >= 0 ==> IsDigit(NatToString(a)[0]); }
    assert b < 0 <==> s[0] == '-' by { assert b >= 0 ==> IsDigit(NatToString(b)[0]); }
    if a < 0 {
      assert s[1..] == NatToString(-a) && s[1..] == NatToString(-b);
      DigitsOfNatToString(-a);
      DigitsOfNatToString(-b);
    } else {
      DigitsOfNatToString(a);
      DigitsOfNatToString(b);
    }
  }

  /** A printed number contains none of the protocol's separators or blanks. */
  lemma IntToStringIsPlain(n: int, c: char)
    requires !IsDigit(c) && c != '-'
    ensures c !in IntToString(n)
    ensures !IsTrimmed(IntToString(n)[0])
    ensures Trim(IntToString(n)) == IntToString(n)
  {
    var s := IntToString(n);
    IntToStringChars(n);
    TrimIdentity(s);
  }
}
