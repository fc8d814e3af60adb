/** Go's `strings` and `fmt` helpers that the core relies on, defined on
    `string` (a sequence of Unicode scalar values, as Go's `range` over a
    string sees it). */
module Strs {
  import opened Wrappers

  /** `sub` occurs in `s` at position `i`. */
  predicate Occurs(sub: string, s: string, i: int) {
    0 <= i && i + |sub| <= |s| && s[i..i + |sub|] == sub
  }

  /** The first position at or after `i` where `sub` occurs in `s`. */
  function IndexFrom(s: string, sub: string, i: nat): (r: Option<nat>)
    ensures r.Some? ==> i <= r.value && Occurs(sub, s, r.value)
    ensures r.Some? ==> forall j :: i <= j < r.value ==> !Occurs(sub, s, j)
    ensures r.None? ==> forall j :: i <= j ==> !Occurs(sub, s, j)
    decreases |s| - i
  {
    if i + |sub| > |s| then None
    else if s[i..i + |sub|] == sub then Some(i)
    else IndexFrom(s, sub, i + 1)
  }

  /** strings.Contains(s, sub). */
  function Contains(s: string, sub: string): (r: bool)
    ensures r <==> exists i :: Occurs(sub, s, i)
  {
    IndexFrom(s, sub, 0).Some?
  }

  /** A one-character pattern occurs exactly when the character is in the string. */
  lemma ContainsChar(s: string, c: char)
    ensures Contains(s, [c]) <==> c in s
  {
    if c in s {
      var i :| 0 <= i < |s| && s[i] == c;
      assert Occurs([c], s, i);
    }
    if Contains(s, [c]) {
      var i :| Occurs([c], s, i);
      assert s[i] == s[i..i + 1][0] == c;
    }
  }

  /** strings.Replace(s, pat, rep, 1): the first occurrence of `pat` is
      replaced; without one, `s` comes back unchanged. */
  function ReplaceFirst(s: string, pat: string, rep: string): (r: string)
    ensures !Contains(s, pat) ==> r == s
    ensures Contains(s, pat) ==>
      exists i :: Occurs(pat, s, i) && (forall j :: 0 <= j < i ==> !Occurs(pat, s, j))
                  && r == s[..i] + rep + s[i + |pat|..]
  {
    match IndexFrom(s, pat, 0)
    case None => s
    case Some(i) => s[..i] + rep + s[i + |pat|..]
  }

  /** strings.ReplaceAll(s, string(c), rep) for a one-character pattern. */
  function ReplaceChar(s: string, c: char, rep: string): (r: string)
    ensures c !in s ==> r == s
    ensures c !in rep ==> c !in r
    ensures forall d :: d in r && d !in rep ==> d in s
  {
    if |s| == 0 then ""
    else (if s[0] == c then rep else [s[0]]) + ReplaceChar(s[1..], c, rep)
  }

  /** strings.Split(s, string(sep)): the pieces between separators, at least one. */
  function Split(s: string, sep: char): (parts: seq<string>)
    ensures |parts| >= 1
    ensures forall k :: 0 <= k < |parts| ==> sep !in parts[k]
    decreases |s|
  {
    if |s| == 0 then [""]
    else
      var rest := Split(s[1..], sep);
      if s[0] == sep then [""] + rest
      else [[s[0]] + rest[0]] + rest[1..]
  }

  /** strings.Join(parts, string(sep)). */
  function Join(parts: seq<string>, sep: char): string
    decreases |parts|
  {
    if |parts| == 0 then ""
    else if |parts| == 1 then parts[0]
    else parts[0] + [sep] + Join(parts[1..], sep)
  }

  /** Joining the pieces again gives back the string that was split. */
  lemma {:induction false} JoinSplit(s: string, sep: char)
    ensures Join(Split(s, sep), sep) == s
    decreases |s|
  {
    if |s| > 0 {
      var rest := Split(s[1..], sep);
      JoinSplit(s[1..], sep);
      if s[0] == sep {
        assert Split(s, sep) == [""] + rest;
        assert ([""] + rest)[1..] == rest;
        assert s == [sep] + s[1..];
      } else if |rest| == 1 {
        assert Split(s, sep) == [[s[0]] + rest[0]];
        assert s == [s[0]] + s[1..];
      } else {
        var parts := [[s[0]] + rest[0]] + rest[1..];
        assert Split(s, sep) == parts;
        assert parts[1..] == rest[1..];
        assert Join(rest, sep) == rest[0] + [sep] + Join(rest[1..], sep);
        assert s == [s[0]] + s[1..];
      }
    }
  }

  /** A piece free of the separator splits to itself. */
  lemma {:induction false} SplitPiece(x: string, sep: char)
    requires sep !in x
    ensures Split(x, sep) == [x]
    decreases |x|
  {
    if |x| > 0 {
      SplitPiece(x[1..], sep);
      assert x == [x[0]] + x[1..];
    }
  }

  /** A separator-free piece followed by the separator splits off as the first piece. */
  lemma {:induction false} SplitFront(x: string, sep: char, s: string)
    requires sep !in x
    ensures Split(x + [sep] + s, sep) == [x] + Split(s, sep)
    decreases |x|
  {
    var t := x + [sep] + s;
    if |x| == 0 {
      assert t == [sep] + s;
      assert t[1..] == s;
    } else {
      assert t[1..] == x[1..] + [sep] + s;
      SplitFront(x[1..], sep, s);
      assert x == [x[0]] + x[1..];
    }
  }

  /** Splitting a join of separator-free pieces gives the pieces back. */
  lemma {:induction false} SplitJoin(parts: seq<string>, sep: char)
    requires |parts| >= 1
    requires forall k :: 0 <= k < |parts| ==> sep !in parts[k]
    ensures Split(Join(parts, sep), sep) == parts
    decreases |parts|
  {
    if |parts| == 1 {
      SplitPiece(parts[0], sep);
    } else {
      SplitJoin(parts[1..], sep);
      SplitFront(parts[0], sep, Join(parts[1..], sep));
      assert [parts[0]] + parts[1..] == parts;
    }
  }

  /** A character in no piece, other than the separator, is not in the join. */
  lemma {:induction false} JoinAvoids(parts: seq<string>, sep: char, c: char)
    requires c != sep && forall k :: 0 <= k < |parts| ==> c !in parts[k]
    ensures c !in Join(parts, sep)
    decreases |parts|
  {
    if |parts| > 1 {
      JoinAvoids(parts[1..], sep, c);
    }
  }

  /** The first piece is the part of `s` before its first separator. */
  lemma {:induction false} SplitFirstPiece(s: string, sep: char)
    ensures var p := Split(s, sep)[0];
      |p| <= |s| && s[..|p|] == p && sep !in p && (|p| == |s| || s[|p|] == sep)
    decreases |s|
  {
    if |s| > 0 && s[0] != sep {
      SplitFirstPiece(s[1..], sep);
    }
  }

  /** The last piece is the part of `s` after its last separator. */
  lemma {:induction false} SplitLastPiece(s: string, sep: char)
    ensures var parts := Split(s, sep); var p := parts[|parts| - 1];
      |p| <= |s| && s[|s| - |p|..] == p && sep !in p
      && (|p| == |s| || s[|s| - |p| - 1] == sep)
    decreases |s|
  {
    if |s| > 0 {
      SplitLastPiece(s[1..], sep);
      var rest := Split(s[1..], sep);
      var q := rest[|rest| - 1];
      assert s[1..][|s| - 1 - |q|..] == s[|s| - |q|..];
      if s[0] != sep && |rest| == 1 {
        JoinSplit(s[1..], sep);
        assert Split(s, sep) == [[s[0]] + rest[0]];
        assert s == [s[0]] + s[1..];
      } else {
        var parts := Split(s, sep);
        assert parts[|parts| - 1] == q;
        if |q| < |s| - 1 {
          assert s[1..][|s| - 1 - |q| - 1] == s[|s| - |q| - 1];
        } else if s[0] != sep {
          assert q == s[1..];
          SplitPiece(s[1..], sep);
        }
      }
    }
  }

  /** The decimal digit `d` as a character. */
  function DigitChar(d: nat): (c: char)
    requires d < 10
    ensures '0' <= c <= '9'
  {
    (48 + d) as char
  }

  predicate IsDigits(s: string) {
    forall i :: 0 <= i < |s| ==> '0' <= s[i] <= '9'
  }

  /** The decimal numeral of `n`, most significant digit first (fmt's %d). */
  function NatToString(n: nat): (r: string)
    ensures |r| >= 1 && IsDigits(r)
    decreases n
  {
    if n < 10 then [DigitChar(n)] else NatToString(n / 10) + [DigitChar(n % 10)]
  }

  /** The value of a decimal numeral. */
  function ParseNat(s: string): nat
    requires IsDigits(s)
    decreases |s|
  {
    if |s| == 0 then 0
    else ParseNat(s[..|s| - 1]) * 10 + (s[|s| - 1] as int - 48)
  }

  /** Reading back a printed numeral gives the number. */
  lemma {:induction false} ParseNatToString(n: nat)
    ensures ParseNat(NatToString(n)) == n
    decreases n
  {
    if n >= 10 {
      ParseNatToString(n / 10);
      var s := NatToString(n);
      assert s[..|s| - 1] == NatToString(n / 10);
    }
  }

  /** fmt.Sprint of an integer: a minus sign for negative values, then the numeral. */
  function IntToString(i: int): (r: string)
    ensures |r| >= 1
    ensures r[0] == '-' <==> i < 0
  {
    if i < 0 then "-" + NatToString(-i) else NatToString(i)
  }

  /** The integer value of IntToString's output. */
  function ParseInt(s: string): int
    requires |s| >= 1 && IsDigits(if s[0] == '-' then s[1..] else s)
  {
    if s[0] == '-' then 0 - ParseNat(s[1..]) else ParseNat(s)
  }

  /** Printing an integer can be undone. */
  lemma IntToStringRoundTrip(i: int)
    ensures var r := IntToString(i); IsDigits(if r[0] == '-' then r[1..] else r) && ParseInt(r) == i
  {
    var r := IntToString(i);
    if i < 0 {
      ParseNatToString(-i);
      assert r[1..] == NatToString(-i);
    } else {
      ParseNatToString(i);
    }
  }
}
