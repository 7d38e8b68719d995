/** The behaviour of java.lang.String that the lock-screen widgets and the volume label
    rely on, over `string` (a sequence of chars): toLowerCase, contains, split around a
    one-character separator, trim and String.valueOf(int). Case mapping covers the ASCII
    letters only. */
module JavaStrings {

  /** Character.toLowerCase on the ASCII letters; every other char is kept. */
  function LowerChar(c: char): char
  {
    if 'A' <= c <= 'Z' then (c as int + 32) as char else c
  }

  /** Character.toUpperCase on the ASCII letters; every other char is kept. */
  function UpperChar(c: char): char
  {
    if 'a' <= c <= 'z' then (c as int - 32) as char else c
  }

  /** String.toLowerCase, char by char. */
  function ToLower(s: string): (r: string)
    ensures |r| == |s|
    ensures forall i :: 0 <= i < |s| ==> r[i] == LowerChar(s[i])
  {
    seq(|s|, i requires 0 <= i < |s| => LowerChar(s[i]))
  }

  predicate IsPrefix(p: string, s: string)
  {
    |p| <= |s| && s[..|p|] == p
  }

  /** String.contains: `sub` occurs in `s` at some position. */
  predicate Contains(s: string, sub: string)
    decreases |s|
  {
    IsPrefix(sub, s) || (|s| > 0 && Contains(s[1..], sub))
  }

  /** An occurrence at position i is found by Contains. */
  lemma {:induction false} ContainsAt(s: string, sub: string, i: nat)
    requires i + |sub| <= |s| && s[i..i + |sub|] == sub
    ensures Contains(s, sub)
    decreases i
  {
    if i > 0 {
      assert s[1..][i - 1..i - 1 + |sub|] == s[i..i + |sub|];
      ContainsAt(s[1..], sub, i - 1);
    }
  }

  /** A nonempty substring's first char occurs in the string. */
  lemma {:induction false} ContainsFirstChar(s: string, sub: string)
    requires |sub| > 0 && Contains(s, sub)
    ensures sub[0] in s
    decreases |s|
  {
    if !IsPrefix(sub, s) {
      ContainsFirstChar(s[1..], sub);
    }
  }

  /** Every char `c` of a sequence containing it is found as a one-char substring. */
  lemma ContainsChar(s: string, c: char)
    requires c in s
    ensures Contains(s, [c])
  {
    var i :| 0 <= i < |s| && s[i] == c;
    assert s[i..i + 1] == [c];
    ContainsAt(s, [c], i);
  }

  /** The pieces between every two occurrences of `c`, empty pieces kept:
      one more piece than there are separators. */
  function SplitAll(s: string, c: char): (r: seq<string>)
    ensures |r| >= 1
    ensures forall k :: 0 <= k < |r| ==> c !in r[k]
    ensures (forall k :: 0 <= k < |r| ==> r[k] == []) <==> (forall i :: 0 <= i < |s| ==> s[i] == c)
    decreases |s|
  {
    if s == [] then [[]]
    else
      var rest := SplitAll(s[1..], c);
      assert forall i :: 1 <= i < |s| ==> s[i] == s[1..][i - 1];
      if s[0] == c then
        var r := [[]] + rest;
        assert forall k :: 1 <= k < |r| ==> r[k] == rest[k - 1];
        assert forall k :: 0 <= k < |rest| ==> rest[k] == r[k + 1];
        assert forall i :: 0 <= i < |s[1..]| ==> s[1..][i] == s[i + 1];
        r
      else
        var r := [[s[0]] + rest[0]] + rest[1..];
        assert r[0] != [] && s[0] != c;
        assert forall k :: 1 <= k < |r| ==> r[k] == rest[k];
        r
  }

  /** Removes the empty strings at the end, as String.split with limit 0 does. */
  function DropTrailingEmpty(ws: seq<string>): (r: seq<string>)
    ensures |r| <= |ws| && r == ws[..|r|]
    ensures |r| > 0 ==> r[|r| - 1] != []
    ensures forall k :: |r| <= k < |ws| ==> ws[k] == []
    decreases |ws|
  {
    if |ws| > 0 && ws[|ws| - 1] == [] then DropTrailingEmpty(ws[..|ws| - 1]) else ws
  }

  /** String.split around a one-character separator: the whole string when the separator
      does not occur (so "" splits to [""]), otherwise every piece with the trailing empty
      ones dropped. */
  function Split(s: string, c: char): (r: seq<string>)
    ensures forall k :: 0 <= k < |r| ==> c !in r[k]
    ensures c !in s ==> r == [s]
    ensures |r| == 0 <==> |s| > 0 && forall i :: 0 <= i < |s| ==> s[i] == c
    ensures c in s && |r| > 0 ==> r[|r| - 1] != []
    ensures |s| > 0 && |r| > 0 ==> (r[0] == [] <==> s[0] == c)
  {
    if c !in s then
      assert |s| > 0 ==> s[0] != c;
      [s]
    else DropTrailingEmpty(SplitAll(s, c))
  }

  /** The words of `ws` with `sep` between each two of them. */
  function Join(ws: seq<string>, sep: string): string
    decreases |ws|
  {
    if |ws| == 0 then []
    else if |ws| == 1 then ws[0]
    else ws[0] + sep + Join(ws[1..], sep)
  }

  lemma JoinFront(x: string, y: string, zs: seq<string>, sep: string)
    ensures Join([x + y] + zs, sep) == x + Join([y] + zs, sep)
  {
    assert ([x + y] + zs)[1..] == zs;
    assert ([y] + zs)[1..] == zs;
  }

  /** Joining the pieces back with the separator restores the string. */
  lemma {:induction false} JoinSplitAll(s: string, c: char)
    ensures Join(SplitAll(s, c), [c]) == s
    decreases |s|
  {
    if s != [] {
      var rest := SplitAll(s[1..], c);
      JoinSplitAll(s[1..], c);
      if s[0] == c {
        assert ([[]] + rest)[1..] == rest;
      } else {
        JoinFront([s[0]], rest[0], rest[1..], [c]);
        assert [rest[0]] + rest[1..] == rest;
      }
      assert s == [s[0]] + s[1..];
    }
  }

  /** A prefix without the separator becomes the front of the first piece. */
  lemma {:induction false} SplitAllPrefix(w: string, t: string, c: char)
    requires c !in w
    ensures SplitAll(w + t, c) == [w + SplitAll(t, c)[0]] + SplitAll(t, c)[1..]
    decreases |w|
  {
    var r := SplitAll(t, c);
    if w == [] {
      assert w + t == t;
      assert w + r[0] == r[0];
      assert [r[0]] + r[1..] == r;
    } else {
      assert (w + t)[1..] == w[1..] + t;
      SplitAllPrefix(w[1..], t, c);
      assert [w[0]] + (w[1..] + r[0]) == w + r[0];
    }
  }

  /** Splitting words joined by a separator none of them contains gives the words back. */
  lemma {:induction false} SplitAllJoin(ws: seq<string>, c: char)
    requires |ws| >= 1
    requires forall k :: 0 <= k < |ws| ==> c !in ws[k]
    ensures SplitAll(Join(ws, [c]), c) == ws
    decreases |ws|
  {
    if |ws| == 1 {
      SplitAllPrefix(ws[0], [], c);
      assert ws[0] + [] == ws[0];
    } else {
      SplitAllJoin(ws[1..], c);
      var t := [c] + Join(ws[1..], [c]);
      assert Join(ws, [c]) == ws[0] + t;
      SplitAllPrefix(ws[0], t, c);
      assert t[1..] == Join(ws[1..], [c]);
      assert SplitAll(t, c) == [[]] + SplitAll(t[1..], c);
      assert ws[0] + [] == ws[0];
      assert ws == [ws[0]] + ws[1..];
    }
  }

  /** The separator occurs in words joined by it, as soon as there are two words. */
  lemma JoinHasSeparator(ws: seq<string>, c: char)
    requires |ws| >= 2
    ensures c in Join(ws, [c])
  {
    assert Join(ws, [c])[|ws[0]|] == c;
  }

  /** String.split inverts Join for words free of the separator whose last one is not
      empty (split drops trailing empty words). */
  lemma SplitJoin(ws: seq<string>, c: char)
    requires |ws| >= 1
    requires forall k :: 0 <= k < |ws| ==> c !in ws[k]
    requires |ws| == 1 || ws[|ws| - 1] != []
    ensures Split(Join(ws, [c]), c) == ws
  {
    if |ws| >= 2 {
      JoinHasSeparator(ws, c);
      SplitAllJoin(ws, c);
    }
  }

  /** Drops the leading chars at most U+0020. */
  function TrimStart(s: string): (r: string)
    ensures |r| <= |s| && r == s[|s| - |r|..]
    ensures forall i :: 0 <= i < |s| - |r| ==> s[i] <= ' '
    ensures |r| > 0 ==> r[0] > ' '
    decreases |s|
  {
    if |s| > 0 && s[0] <= ' ' then TrimStart(s[1..]) else s
  }

  /** Drops the trailing chars at most U+0020. */
  function TrimEnd(s: string): (r: string)
    ensures |r| <= |s| && r == s[..|r|]
    ensures forall i :: |r| <= i < |s| ==> s[i] <= ' '
    ensures |r| > 0 ==> r[|r| - 1] > ' '
    decreases |s|
  {
    if |s| > 0 && s[|s| - 1] <= ' ' then TrimEnd(s[..|s| - 1]) else s
  }

  /** `r` sits at position i of `s`, with only chars at most U+0020 around it. */
  predicate StripsTo(s: string, r: string, i: nat)
  {
    && i + |r| <= |s| && s[i..i + |r|] == r
    && (forall k :: 0 <= k < i ==> s[k] <= ' ')
    && (forall k :: i + |r| <= k < |s| ==> s[k] <= ' ')
  }

  /** String.trim: both ends stripped of chars at most U+0020. The result is a piece of
      `s` with printable ends and only blanks and control chars around it. */
  function Trim(s: string): (r: string)
    ensures |r| > 0 ==> r[0] > ' ' && r[|r| - 1] > ' '
    ensures exists i :: StripsTo(s, r, i)
  {
    var t := TrimStart(s);
    var r := TrimEnd(t);
    assert StripsTo(s, r, |s| - |t|);
    r
  }

  /** Trimming a string whose two ends are printable, followed by one space, removes just
      that space. */
  lemma TrimSpaced(t: string)
    requires |t| > 0 && t[0] > ' ' && t[|t| - 1] > ' '
    ensures Trim(t + " ") == t
  {
    assert TrimStart(t + " ") == t + " ";
    assert (t + " ")[..|t|] == t;
    assert TrimEnd(t) == t;
  }

  predicate IsDigit(c: char)
  {
    '0' <= c <= '9'
  }

  predicate AllDigits(s: string)
  {
    forall i :: 0 <= i < |s| ==> IsDigit(s[i])
  }

  function DigitChar(d: nat): (c: char)
    requires d < 10
    ensures IsDigit(c) && c as int - '0' as int == d
  {
    ('0' as int + d) as char
  }

  /** The decimal digits of n, most significant first, without leading zeros. */
  function NatToString(n: nat): (r: string)
    ensures |r| >= 1 && AllDigits(r)
    ensures r[0] == '0' ==> n == 0
    decreases n
  {
    if n < 10 then [DigitChar(n)] else NatToString(n / 10) + [DigitChar(n % 10)]
  }

  /** String.valueOf(int): a minus sign before the digits of a negative value. */
  function IntToString(i: int): (r: string)
    ensures IsDecimal(r)
    ensures r[0] == '-' <==> i < 0
    ensures r[0] == '0' ==> r == "0"
    ensures i < 0 ==> r[1] != '0'
  {
    if i < 0 then "-" + NatToString(-i) else NatToString(i)
  }

  /** The value of a string of decimal digits. */
  function ParseNat(s: string): nat
    requires AllDigits(s)
    decreases |s|
  {
    if s == [] then 0 else ParseNat(s[..|s| - 1]) * 10 + (s[|s| - 1] as int - '0' as int)
  }

  /** An optional minus sign followed by at least one digit. */
  predicate IsDecimal(s: string)
  {
    if |s| > 0 && s[0] == '-' then |s| >= 2 && AllDigits(s[1..]) else |s| >= 1 && AllDigits(s)
  }

  /** Integer.parseInt on a decimal string. */
  function ParseInt(s: string): int
    requires IsDecimal(s)
  {
    if |s| > 0 && s[0] == '-' then 0 - ParseNat(s[1..]) else ParseNat(s)
  }

  lemma {:induction false} ParseNatToString(n: nat)
    ensures ParseNat(NatToString(n)) == n
    decreases n
  {
    if n >= 10 {
      ParseNatToString(n / 10);
      var r := NatToString(n);
      assert r[..|r| - 1] == NatToString(n / 10);
    }
  }

  /** String.valueOf(int) is read back by Integer.parseInt. */
  lemma IntToStringRoundTrip(i: int)
    ensures IsDecimal(IntToString(i)) && ParseInt(IntToString(i)) == i
  {
    if i < 0 {
      ParseNatToString(-i);
      assert ("-" + NatToString(-i))[1..] == NatToString(-i);
    } else {
      ParseNatToString(i);
    }
  }
}
