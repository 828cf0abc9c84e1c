/**
 * The `java.lang.String` operations the services rely on, written out on `seq<char>`:
 * `trim`, `isBlank`, `startsWith`, `contains`, `split` (with limit -1 and with the default
 * limit 0), ASCII case mapping, `replace`, and the zero padding used for stock codes.
 */
module JavaText {
  import opened Wrappers

  /** `Character.isWhitespace`: the Unicode space, line and paragraph separators except the
      no-break spaces, plus the ASCII controls U+0009..U+000D and U+001C..U+001F. */
  predicate IsWhitespace(c: char) {
    c == ' ' || ('\t' <= c <= '\r') || ('\U{1C}' <= c <= '\U{1F}')
    || c == '\U{1680}' || ('\U{2000}' <= c <= '\U{200A}' && c != '\U{2007}')
    || c == '\U{2028}' || c == '\U{2029}' || c == '\U{205F}' || c == '\U{3000}'
  }

  /** `String.isBlank`: empty, or only whitespace. */
  predicate IsBlank(s: string) {
    forall i :: 0 <= i < |s| ==> IsWhitespace(s[i])
  }

  /** A Java `null`-or-blank test on an optional string. */
  predicate NullOrBlank(s: Option<string>) {
    s.None? || IsBlank(s.value)
  }

  /** The characters `String.trim` removes: every code point up to U+0020. */
  predicate Trimmable(c: char) {
    c <= ' '
  }

  function TrimLeft(s: string): (r: string)
    ensures |r| <= |s|
  {
    if |s| > 0 && Trimmable(s[0]) then TrimLeft(s[1..]) else s
  }

  function TrimRight(s: string): (r: string)
    ensures |r| <= |s|
  {
    if |s| > 0 && Trimmable(s[|s| - 1]) then TrimRight(s[..|s| - 1]) else s
  }

  /** `String.trim`: drops every leading and trailing char <= U+0020. */
  function Trim(s: string): (r: string)
    ensures |r| <= |s|
  {
    TrimRight(TrimLeft(s))
  }

  lemma {:induction false} TrimLeftSpec(s: string)
    ensures var r := TrimLeft(s);
      r == s[|s| - |r|..] && (r == [] || !Trimmable(r[0]))
      && forall k :: 0 <= k < |s| - |r| ==> Trimmable(s[k])
  {
    if |s| > 0 && Trimmable(s[0]) {
      TrimLeftSpec(s[1..]);
    }
  }

  lemma {:induction false} TrimRightSpec(s: string)
    ensures var r := TrimRight(s);
      r == s[..|r|] && (r == [] || !Trimmable(r[|r| - 1]))
      && forall k :: |r| <= k < |s| ==> Trimmable(s[k])
  {
    if |s| > 0 && Trimmable(s[|s| - 1]) {
      TrimRightSpec(s[..|s| - 1]);
    }
  }

  /** Where the trimmed string starts in the input. */
  function TrimStart(s: string): nat
    ensures TrimStart(s) <= |s|
  {
    |s| - |TrimLeft(s)|
  }

  /** The trimmed string is the infix of the input at `TrimStart`, it neither starts nor ends
      with a character `trim` removes, and everything cut off is such a character. */
  lemma TrimSpec(s: string)
    ensures var r := Trim(s); var i := TrimStart(s);
      i + |r| <= |s| && s[i..i + |r|] == r
      && (r == [] || (!Trimmable(r[0]) && !Trimmable(r[|r| - 1])))
      && (forall k :: 0 <= k < i ==> Trimmable(s[k]))
      && (forall k :: i + |r| <= k < |s| ==> Trimmable(s[k]))
  {
    var l := TrimLeft(s);
    TrimLeftSpec(s);
    TrimRightSpec(l);
    var r := Trim(s);
    var i := |s| - |l|;
    assert s[i..i + |r|] == l[..|r|];
    assert forall k :: i + |r| <= k < |s| ==> s[k] == l[k - i];
    if r != [] {
      assert r[0] == l[0];
    }
  }

  lemma {:induction false} TrimLeftIdempotent(s: string)
    requires s == [] || !Trimmable(s[0])
    ensures TrimLeft(s) == s
  {
  }

  /** Trimming twice is trimming once. */
  lemma TrimIdempotent(s: string)
    ensures Trim(Trim(s)) == Trim(s)
  {
    var t := Trim(s);
    TrimSpec(s);
    assert TrimLeft(t) == t;
    assert TrimRight(t) == t;
  }

  /** A string that only holds characters `trim` removes trims to "". */
  lemma TrimOfBlankAscii(s: string)
    requires forall i :: 0 <= i < |s| ==> Trimmable(s[i])
    ensures Trim(s) == []
  {
    if |s| > 0 {
      TrimOfBlankAscii(s[1..]);
    }
  }

  /** A string that neither starts nor ends with a character `trim` removes is unchanged. */
  lemma TrimNoop(s: string)
    requires s == [] || (!Trimmable(s[0]) && !Trimmable(s[|s| - 1]))
    ensures Trim(s) == s
  {
  }

  predicate StartsWith(s: string, prefix: string) {
    |prefix| <= |s| && s[..|prefix|] == prefix
  }

  lemma {:induction false} NotContainsLonger(s: string, sub: string)
    requires |s| < |sub|
    ensures !Contains(s, sub)
    decreases |s|
  {
    if |s| > 0 {
      NotContainsLonger(s[1..], sub);
    }
  }

  /** `s.contains(sub)`: `sub` occurs at some position of `s`. */
  predicate Contains(s: string, sub: string)
    decreases |s|
  {
    StartsWith(s, sub) || (|s| > 0 && Contains(s[1..], sub))
  }

  /** Index of the first `c` in `s`, or `|s|` when there is none. */
  function IndexOf(s: string, c: char): (r: nat)
    ensures r <= |s|
    ensures r < |s| ==> s[r] == c
    ensures forall k :: 0 <= k < r ==> s[k] != c
    ensures r == |s| <==> c !in s
  {
    if |s| == 0 then 0
    else if s[0] == c then 0
    else 1 + IndexOf(s[1..], c)
  }

  /** `s.split(c, -1)`: every field between separators, empty ones included. */
  function SplitAll(s: string, c: char): (r: seq<string>)
    ensures |r| >= 1
    ensures forall k :: 0 <= k < |r| ==> c !in r[k]
    decreases |s|
  {
    var i := IndexOf(s, c);
    if i == |s| then [s] else [s[..i]] + SplitAll(s[i + 1..], c)
  }

  /** `String.join` with a one-character separator. */
  function Join(parts: seq<string>, c: char): string
    requires |parts| >= 1
  {
    if |parts| == 1 then parts[0] else parts[0] + [c] + Join(parts[1..], c)
  }

  /** Joining one more part in front. */
  lemma JoinCons(p: string, rest: seq<string>, c: char)
    requires |rest| >= 1
    ensures Join([p] + rest, c) == p + [c] + Join(rest, c)
  {
    assert ([p] + rest)[1..] == rest;
  }

  /** Splitting loses nothing: joining the fields back with the separator gives the input. */
  lemma {:induction false} SplitAllJoin(s: string, c: char)
    ensures Join(SplitAll(s, c), c) == s
    decreases |s|
  {
    var i := IndexOf(s, c);
    if i < |s| {
      SplitAllJoin(s[i + 1..], c);
      JoinCons(s[..i], SplitAll(s[i + 1..], c), c);
      assert s == s[..i] + [c] + s[i + 1..];
    }
  }

  lemma {:induction false} IndexOfAfter(p: string, c: char, rest: string)
    requires c !in p
    ensures IndexOf(p + [c] + rest, c) == |p|
    decreases |p|
  {
    if |p| > 0 {
      assert (p + [c] + rest)[1..] == p[1..] + [c] + rest;
      IndexOfAfter(p[1..], c, rest);
    }
  }

  /** A first field free of the separator is split off whole. */
  lemma SplitAllCons(p: string, c: char, rest: string)
    requires c !in p
    ensures SplitAll(p + [c] + rest, c) == [p] + SplitAll(rest, c)
  {
    var s := p + [c] + rest;
    IndexOfAfter(p, c, rest);
    assert s[..|p|] == p;
    assert s[|p| + 1..] == rest;
  }

  /** Fields free of the separator come back from the joined text unchanged. */
  lemma {:induction false} JoinSplitAll(parts: seq<string>, c: char)
    requires |parts| >= 1 && forall k :: 0 <= k < |parts| ==> c !in parts[k]
    ensures SplitAll(Join(parts, c), c) == parts
    decreases |parts|
  {
    if |parts| > 1 {
      SplitAllCons(parts[0], c, Join(parts[1..], c));
      JoinSplitAll(parts[1..], c);
      assert parts == [parts[0]] + parts[1..];
    }
  }

  /** A character that occurs in no part, and is not the separator, is not in the join. */
  lemma {:induction false} JoinAvoids(parts: seq<string>, c: char, d: char)
    requires |parts| >= 1 && d != c && forall k :: 0 <= k < |parts| ==> d !in parts[k]
    ensures d !in Join(parts, c)
  {
    if |parts| > 1 {
      JoinAvoids(parts[1..], c, d);
    }
  }

  /** An occurrence at any position makes `contains` true. */
  lemma {:induction false} ContainsAt(s: string, sub: string, k: nat)
    requires k + |sub| <= |s| && s[k..k + |sub|] == sub
    ensures Contains(s, sub)
    decreases k
  {
    if k > 0 {
      assert s[1..][k - 1..k - 1 + |sub|] == s[k..k + |sub|];
      ContainsAt(s[1..], sub, k - 1);
    }
  }

  /** Drops the trailing empty fields, as `split` with limit 0 does. */
  function DropTrailingEmpty(parts: seq<string>): (r: seq<string>)
    ensures |r| <= |parts| && r == parts[..|r|]
    ensures r == [] || r[|r| - 1] != []
    ensures forall k :: |r| <= k < |parts| ==> parts[k] == []
  {
    if |parts| > 0 && parts[|parts| - 1] == [] then DropTrailingEmpty(parts[..|parts| - 1]) else parts
  }

  /** `s.split(c)`: no separator gives `[s]`; otherwise the fields without the trailing empty ones. */
  function Split(s: string, c: char): (r: seq<string>)
  {
    if c !in s then [s] else DropTrailingEmpty(SplitAll(s, c))
  }

  function LowerChar(c: char): char {
    if 'A' <= c <= 'Z' then (c as int + 32) as char else c
  }

  function UpperChar(c: char): char {
    if 'a' <= c <= 'z' then (c as int - 32) as char else c
  }

  /** `toLowerCase` on ASCII letters. */
  function ToLower(s: string): (r: string)
    ensures |r| == |s| && forall i :: 0 <= i < |s| ==> r[i] == LowerChar(s[i])
  {
    if |s| == 0 then [] else [LowerChar(s[0])] + ToLower(s[1..])
  }

  /** `toUpperCase` on ASCII letters. */
  function ToUpper(s: string): (r: string)
    ensures |r| == |s| && forall i :: 0 <= i < |s| ==> r[i] == UpperChar(s[i])
  {
    if |s| == 0 then [] else [UpperChar(s[0])] + ToUpper(s[1..])
  }

  /** A character that lower-cases to an ASCII lower-case letter upper-cases to that
      letter's capital. */
  lemma LowerToUpperChar(c: char, x: char)
    requires 'a' <= x <= 'z' && LowerChar(c) == x
    ensures UpperChar(c) == UpperChar(x)
  {
  }

  /** A word of ASCII lower-case letters found in the lower-cased text is found, in
      capitals, in the upper-cased text. */
  lemma {:induction false} LowerContainsUpper(t: string, w: string)
    requires forall i :: 0 <= i < |w| ==> 'a' <= w[i] <= 'z'
    requires Contains(ToLower(t), w)
    ensures Contains(ToUpper(t), ToUpper(w))
    decreases |t|
  {
    var lo, up, uw := ToLower(t), ToUpper(t), ToUpper(w);
    if StartsWith(lo, w) {
      forall j | 0 <= j < |w| ensures up[j] == uw[j] {
        LowerToUpperChar(t[j], w[j]);
      }
      assert up[..|uw|] == uw;
    } else {
      assert |t| > 0 && Contains(lo[1..], w);
      assert lo[1..] == ToLower(t[1..]);
      LowerContainsUpper(t[1..], w);
      assert up[1..] == ToUpper(t[1..]);
    }
  }

  /** `equalsIgnoreCase` on ASCII letters. */
  predicate EqualsIgnoreCase(a: string, b: string) {
    ToLower(a) == ToLower(b)
  }

  /** `s.replace(c, rep)`: every occurrence of `c` becomes `rep`. */
  function ReplaceChar(s: string, c: char, rep: string): (r: string)
    ensures |rep| == 1 ==> |r| == |s|
  {
    if |s| == 0 then []
    else (if s[0] == c then rep else [s[0]]) + ReplaceChar(s[1..], c, rep)
  }

  /** `s.replace(",", "")`. */
  function RemoveChar(s: string, c: char): (r: string)
    ensures c !in r && |r| <= |s|
  {
    if |s| == 0 then []
    else (if s[0] == c then [] else [s[0]]) + RemoveChar(s[1..], c)
  }
  lemma {:induction false} RemoveCharAppend(a: string, b: string, c: char)
    ensures RemoveChar(a + b, c) == RemoveChar(a, c) + RemoveChar(b, c)
  {
    if |a| > 0 {
      assert (a + b)[1..] == a[1..] + b;
      RemoveCharAppend(a[1..], b, c);
    } else {
      assert a + b == b;
    }
  }

  lemma {:induction false} RemoveCharAbsent(s: string, c: char)
    requires c !in s
    ensures RemoveChar(s, c) == s
  {
    if |s| > 0 {
      RemoveCharAbsent(s[1..], c);
    }
  }


  function Spaces(n: nat): (r: string)
    ensures |r| == n && forall i :: 0 <= i < n ==> r[i] == ' '
  {
    if n == 0 then [] else [' '] + Spaces(n - 1)
  }

  /** The stock-code normalization `s.length() >= 6 ? s : String.format("%6s", s).replace(' ', '0')`:
      a code of six or more characters is kept; a shorter one is left-padded with spaces to
      six, and then every space (the padding and any inside `s`) becomes '0'. */
  function PadCode6(s: string): (r: string)
    ensures |r| == if |s| >= 6 then |s| else 6
  {
    if |s| >= 6 then s else ReplaceChar(Spaces(6 - |s|) + s, ' ', "0")
  }

  lemma {:induction false} ReplaceCharAbsent(s: string, c: char, rep: string)
    requires c !in s
    ensures ReplaceChar(s, c, rep) == s
  {
    if |s| > 0 {
      ReplaceCharAbsent(s[1..], c, rep);
    }
  }

  lemma {:induction false} ReplaceCharAppend(a: string, b: string, c: char, rep: string)
    ensures ReplaceChar(a + b, c, rep) == ReplaceChar(a, c, rep) + ReplaceChar(b, c, rep)
    decreases |a|
  {
    if |a| == 0 {
      assert a + b == b;
    } else {
      var head := if a[0] == c then rep else [a[0]];
      calc {
        ReplaceChar(a + b, c, rep);
        { assert (a + b)[0] == a[0] && (a + b)[1..] == a[1..] + b; }
        head + ReplaceChar(a[1..] + b, c, rep);
        { ReplaceCharAppend(a[1..], b, c, rep); }
        head + (ReplaceChar(a[1..], c, rep) + ReplaceChar(b, c, rep));
        (head + ReplaceChar(a[1..], c, rep)) + ReplaceChar(b, c, rep);
      }
    }
  }

  lemma {:induction false} ReplaceSpacesOfSpaces(n: nat)
    ensures ReplaceChar(Spaces(n), ' ', "0") == seq(n, _ => '0')
  {
    if n > 0 {
      ReplaceSpacesOfSpaces(n - 1);
      assert Spaces(n)[1..] == Spaces(n - 1);
    }
  }

  /** A code of six or more characters is kept; a shorter one without spaces gets leading
      zeros up to six characters. */
  lemma PadCode6Spec(s: string)
    ensures |s| >= 6 ==> PadCode6(s) == s
    ensures |s| < 6 && ' ' !in s ==> PadCode6(s) == seq(6 - |s|, _ => '0') + s
  {
    if |s| < 6 && ' ' !in s {
      ReplaceCharAbsent(s, ' ', "0");
      ReplaceCharAppend(Spaces(6 - |s|), s, ' ', "0");
      ReplaceSpacesOfSpaces(6 - |s|);
    }
  }

  /** Normalizing twice is normalizing once. */
  lemma PadCode6Idempotent(s: string)
    ensures PadCode6(PadCode6(s)) == PadCode6(s)
  {
  }

  predicate IsAsciiDigit(c: char) {
    '0' <= c <= '9'
  }

  predicate AllDigits(s: string) {
    forall i :: 0 <= i < |s| ==> IsAsciiDigit(s[i])
  }

  function DigitChar(d: nat): char
    requires d < 10
  {
    ('0' as int + d) as char
  }

  /** Decimal digits of a natural number, without leading zeros. */
  function NatToString(n: nat): (r: string)
    ensures |r| >= 1 && AllDigits(r)
    ensures n != 0 ==> r[0] != '0'
    decreases n
  {
    if n < 10 then [DigitChar(n)] else NatToString(n / 10) + [DigitChar(n % 10)]
  }

  /** `Long.toString` / `String.valueOf` of an integer. */
  function IntToString(n: int): (r: string)
    ensures |r| >= 1
  {
    if n < 0 then "-" + NatToString(-n) else NatToString(n)
  }

  /** The decimal text of an integer is ASCII digits after an optional leading '-'. */
  lemma IntToStringChars(n: int)
    ensures var r := IntToString(n);
      (r[0] == '-' || IsAsciiDigit(r[0])) && forall k :: 0 < k < |r| ==> IsAsciiDigit(r[k])
  {
  }

  /** `String.format("%06d", n)`: at least six characters, zeros after the sign. */
  function ZeroPad6(n: int): (r: string)
  {
    var digits := NatToString(if n < 0 then -n else n);
    var sign := if n < 0 then "-" else "";
    var width := 6 - |sign|;
    sign + (if |digits| < width then seq(width - |digits|, _ => '0') else []) + digits
  }

  /** `s.matches("\\d{6}")` on ASCII digits. */
  predicate IsSixDigits(s: string) {
    |s| == 6 && AllDigits(s)
  }

  /** Negative numbers are padded after the minus sign, so `%06d` of -5 is "-00005". */
  lemma ZeroPad6Negative()
    ensures ZeroPad6(-5) == "-00005"
  {
  }
}
