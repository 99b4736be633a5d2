/** String helpers with Python's meaning: whitespace is what `str.isspace`,
    `str.split()`, `str.strip()` and the regex class `\s` treat as whitespace. */
module Text {

  /** Python's whitespace characters. */
  predicate IsSpace(c: char) {
    ('\t' <= c <= '\r') || ('\U{1C}' <= c <= '\U{1F}') || c == ' ' || c == '\U{85}' || c == '\U{A0}'
    || c == '\U{1680}' || ('\U{2000}' <= c <= '\U{200A}') || c == '\U{2028}' || c == '\U{2029}'
    || c == '\U{202F}' || c == '\U{205F}' || c == '\U{3000}'
  }

  predicate NoSpace(s: string) {
    forall i :: 0 <= i < |s| ==> !IsSpace(s[i])
  }

  predicate IsDigit(c: char) { '0' <= c <= '9' }

  predicate AllDigits(s: string) {
    forall i :: 0 <= i < |s| ==> IsDigit(s[i])
  }

  predicate StartsWith(s: string, p: string) {
    |p| <= |s| && s[..|p|] == p
  }

  predicate EndsWith(s: string, p: string) {
    |p| <= |s| && s[|s| - |p|..] == p
  }

  /** Python's `t in s` for strings. */
  predicate Contains(s: string, t: string)
    decreases |s|
  {
    StartsWith(s, t) || (s != [] && Contains(s[1..], t))
  }

  lemma {:induction false} ContainsAt(s: string, t: string, k: nat)
    requires k + |t| <= |s| && s[k..k + |t|] == t
    ensures Contains(s, t)
    decreases k
  {
    if k > 0 {
      assert s[1..][k - 1..k - 1 + |t|] == s[k..k + |t|];
      ContainsAt(s[1..], t, k - 1);
    }
  }

  /** `s.lstrip()` */
  function TrimLeft(s: string): (r: string)
    ensures |r| <= |s| && r == s[|s| - |r|..]
    ensures r == [] || !IsSpace(r[0])
    ensures forall i :: 0 <= i < |s| - |r| ==> IsSpace(s[i])
  {
    if s == [] || !IsSpace(s[0]) then s else TrimLeft(s[1..])
  }

  /** `s.rstrip()` */
  function TrimRight(s: string): (r: string)
    ensures |r| <= |s| && r == s[..|r|]
    ensures r == [] || !IsSpace(r[|r| - 1])
    ensures forall i :: |r| <= i < |s| ==> IsSpace(s[i])
  {
    if s == [] || !IsSpace(s[|s| - 1]) then s else TrimRight(s[..|s| - 1])
  }

  lemma ConsAppend<T>(x: T, a: seq<T>, b: seq<T>)
    ensures ([x] + a) + b == [x] + (a + b)
  {
  }

  lemma Assoc<T>(a: seq<T>, b: seq<T>, c: seq<T>)
    ensures (a + b) + c == a + (b + c)
  {
  }

  lemma HeadTail<T>(s: seq<T>)
    requires s != []
    ensures [s[0]] + s[1..] == s
  {
  }

  lemma InLaterSuffix<T>(s: seq<T>, k: nat, x: T)
    requires k < |s| && x in s[k + 1..]
    ensures x in s[k..]
  {
    assert s[k..][1..] == s[k + 1..];
  }

  lemma SplitAt<T>(s: seq<T>, k: nat)
    requires k <= |s|
    ensures s[..k] + s[k..] == s
  {
  }

  lemma PrefixSnoc<T>(s: seq<T>, i: nat)
    requires i < |s|
    ensures s[..i + 1] == s[..i] + [s[i]]
  {
  }

  predicate IsPrefixOf<T(==)>(a: seq<T>, b: seq<T>) {
    |a| <= |b| && b[..|a|] == a
  }

  /** `s[:n]` */
  function Take<T(==)>(s: seq<T>, n: nat): (r: seq<T>)
    ensures |r| <= n && IsPrefixOf(r, s)
    ensures |s| <= n ==> r == s
    ensures |s| >= n ==> |r| == n
  {
    if |s| <= n then s else s[..n]
  }

  lemma PrefixOfAppend<T>(a: seq<T>, b: seq<T>, n: nat)
    requires n <= |a|
    ensures (a + b)[..n] == a[..n]
  {
  }

  lemma FullPrefix<T>(s: seq<T>)
    ensures s[..|s|] == s
  {
  }

  /** `s.strip()` */
  function Strip(s: string): (r: string)
    ensures r == [] || (!IsSpace(r[0]) && !IsSpace(r[|r| - 1]))
    ensures |r| <= |s|
  {
    TrimRight(TrimLeft(s))
  }

  lemma StripNoSpace(s: string)
    requires NoSpace(s)
    ensures Strip(s) == s
  {
  }

  /** No whitespace at either end. */
  predicate Trimmed(s: string) {
    s == [] || (!IsSpace(s[0]) && !IsSpace(s[|s| - 1]))
  }

  /** `s.strip()` is a slice of `s` with only whitespace cut off on either side. */
  lemma StripSlice(s: string) returns (a: nat, b: nat)
    ensures a <= b <= |s| && Strip(s) == s[a..b]
    ensures forall i :: 0 <= i < a ==> IsSpace(s[i])
    ensures forall i :: b <= i < |s| ==> IsSpace(s[i])
  {
    var t := TrimLeft(s);
    a := |s| - |t|;
    var r := TrimRight(t);
    b := a + |r|;
    SliceOfSuffix(s, a, r);
  }

  /** A prefix `r` of the suffix `s[a..]` that leaves only whitespace is the slice `s[a..a + |r|]`. */
  lemma SliceOfSuffix(s: string, a: nat, r: string)
    requires a <= |s| && |r| <= |s| - a && r == s[a..][..|r|]
    requires forall j :: |r| <= j < |s| - a ==> IsSpace(s[a..][j])
    ensures r == s[a..a + |r|]
    ensures forall i :: a + |r| <= i < |s| ==> IsSpace(s[i])
  {
    forall i | a + |r| <= i < |s| ensures IsSpace(s[i]) {
      assert s[i] == s[a..][i - a];
    }
  }

  /** `s.strip()` keeps a prefix that starts and ends with non-whitespace. */
  lemma StripKeepsPrefix(s: string, k: nat)
    requires 0 < k <= |s| && !IsSpace(s[0]) && !IsSpace(s[k - 1])
    ensures StartsWith(Strip(s), s[..k])
  {
    var a, b := StripSlice(s);
    assert a == 0;
    assert k <= b;
  }

  /** `s.strip()` occurs in `s`. */
  lemma StripContained(s: string)
    ensures Contains(s, Strip(s))
  {
    var a, b := StripSlice(s);
    ContainsAt(s, Strip(s), a);
  }

  /** `strip()` adds no character. */
  lemma StripKeepsOut(s: string, c: char)
    requires c !in s
    ensures c !in Strip(s)
  {
    var a, b := StripSlice(s);
    forall i | 0 <= i < |Strip(s)| ensures Strip(s)[i] != c {
      assert Strip(s)[i] == s[a + i];
    }
  }

  /** Text without whitespace at either end is its own `strip()`. */
  lemma StripTrimmed(s: string)
    requires Trimmed(s)
    ensures Strip(s) == s
  {
  }

  /** `strip()` deletes whitespace only. */
  lemma RemoveSpaceStrip(s: string)
    ensures RemoveSpace(Strip(s)) == RemoveSpace(s)
  {
    RemoveSpaceTrimLeft(s);
    RemoveSpaceTrimRight(TrimLeft(s));
  }

  lemma RemoveSpaceTrimRight(s: string)
    ensures RemoveSpace(TrimRight(s)) == RemoveSpace(s)
  {
    var t := TrimRight(s);
    assert s == t + s[|t|..];
    RemoveSpaceAppend(t, s[|t|..]);
    RemoveSpaceOfSpaces(s[|t|..]);
  }

  /** `s.strip(chars)` for an explicit set of characters. */
  function StripChars(s: string, cs: set<char>): (r: string)
    ensures |r| <= |s|
    ensures r == [] || (r[0] !in cs && r[|r| - 1] !in cs)
    decreases |s|
  {
    if s == [] then s
    else if s[0] in cs then StripChars(s[1..], cs)
    else if s[|s| - 1] in cs then StripChars(s[..|s| - 1], cs)
    else s
  }

  /** `s.strip('"\'')` */
  function StripQuotes(s: string): (r: string)
    ensures r == [] || (r[0] != '"' && r[0] != '\'' && r[|r| - 1] != '"' && r[|r| - 1] != '\'')
  {
    StripChars(s, {'"', '\''})
  }

  /** The longest prefix of `s` without whitespace. */
  function Token(s: string): (w: string)
    ensures |w| <= |s| && w == s[..|w|] && NoSpace(w)
    ensures |w| < |s| ==> IsSpace(s[|w|])
    ensures s != [] && !IsSpace(s[0]) ==> w != []
  {
    if s == [] || IsSpace(s[0]) then [] else [s[0]] + Token(s[1..])
  }

  /** What `s.split()` yields: a non-empty run without whitespace. */
  predicate IsWord(w: string) {
    w != [] && NoSpace(w)
  }

  predicate AllWords(words: seq<string>) {
    forall i :: 0 <= i < |words| ==> IsWord(words[i])
  }

  lemma AllWordsCons(w: string, words: seq<string>)
    requires IsWord(w) && AllWords(words)
    ensures AllWords([w] + words)
  {
    var ws := [w] + words;
    forall i | 0 <= i < |ws| ensures IsWord(ws[i]) {
      if i > 0 { assert ws[i] == words[i - 1]; }
    }
  }

  /** `s.split()`: the maximal runs of non-whitespace characters, in order. */
  function Words(s: string): (ws: seq<string>)
    ensures AllWords(ws)
    decreases |s|
  {
    var t := TrimLeft(s);
    if t == [] then []
    else
      var w := Token(t);
      var rest := Words(t[|w|..]);
      AllWordsCons(w, rest);
      [w] + rest
  }

  /** `s` with every whitespace character deleted. */
  function RemoveSpace(s: string): (r: string)
    ensures NoSpace(r) && |r| <= |s|
  {
    if s == [] then [] else (if IsSpace(s[0]) then [] else [s[0]]) + RemoveSpace(s[1..])
  }

  lemma {:induction false} RemoveSpaceAppend(a: string, b: string)
    ensures RemoveSpace(a + b) == RemoveSpace(a) + RemoveSpace(b)
  {
    if a != [] {
      RemoveSpaceAppend(a[1..], b);
      assert (a + b)[0] == a[0] && (a + b)[1..] == a[1..] + b;
    } else {
      assert a + b == b;
    }
  }

  lemma {:induction false} RemoveSpaceOfNoSpace(s: string)
    requires NoSpace(s)
    ensures RemoveSpace(s) == s
  {
    if s != [] { RemoveSpaceOfNoSpace(s[1..]); }
  }

  lemma {:induction false} RemoveSpaceOfSpaces(s: string)
    requires forall i :: 0 <= i < |s| ==> IsSpace(s[i])
    ensures RemoveSpace(s) == []
  {
    if s != [] { RemoveSpaceOfSpaces(s[1..]); }
  }

  function Concat(ss: seq<string>): string {
    if ss == [] then [] else ss[0] + Concat(ss[1..])
  }

  lemma {:induction false} ConcatAppend(a: seq<string>, b: seq<string>)
    ensures Concat(a + b) == Concat(a) + Concat(b)
  {
    if a != [] {
      ConcatAppend(a[1..], b);
      assert (a + b)[0] == a[0] && (a + b)[1..] == a[1..] + b;
    } else {
      assert a + b == b;
    }
  }

  lemma RemoveSpaceTrimLeft(s: string)
    ensures RemoveSpace(TrimLeft(s)) == RemoveSpace(s)
  {
    var k := |s| - |TrimLeft(s)|;
    SplitAt(s, k);
    RemoveSpaceAppend(s[..k], s[k..]);
    assert forall i :: 0 <= i < k ==> s[..k][i] == s[i];
    RemoveSpaceOfSpaces(s[..k]);
  }

  lemma RemoveSpaceToken(t: string)
    ensures RemoveSpace(t) == Token(t) + RemoveSpace(t[|Token(t)|..])
  {
    var w := Token(t);
    assert t == w + t[|w|..];
    RemoveSpaceAppend(w, t[|w|..]);
    RemoveSpaceOfNoSpace(w);
  }

  /** Splitting into words loses nothing but whitespace. */
  lemma {:induction false} WordsKeepText(s: string)
    ensures Concat(Words(s)) == RemoveSpace(s)
    decreases |s|
  {
    RemoveSpaceTrimLeft(s);
    var t := TrimLeft(s);
    if t != [] {
      var w := Token(t);
      RemoveSpaceToken(t);
      WordsKeepText(t[|w|..]);
      var ws := [w] + Words(t[|w|..]);
      assert ws[0] == w && ws[1..] == Words(t[|w|..]);
    }
  }

  /** Python's `s.split(sep)` for a one-character separator. */
  function SplitOn(s: string, sep: char): (parts: seq<string>)
    ensures |parts| >= 1
    ensures forall i :: 0 <= i < |parts| ==> sep !in parts[i]
  {
    if s == [] then [[]]
    else if s[0] == sep then [[]] + SplitOn(s[1..], sep)
    else
      var rest := SplitOn(s[1..], sep);
      [[s[0]] + rest[0]] + rest[1..]
  }

  lemma {:induction false} SplitOnNoSep(x: string, sep: char)
    requires sep !in x
    ensures SplitOn(x, sep) == [x]
  {
    if x != [] {
      SplitOnNoSep(x[1..], sep);
      assert [x[0]] + x[1..] == x;
    }
  }

  lemma {:induction false} SplitOnAtSep(x: string, sep: char, y: string)
    requires sep !in x
    ensures SplitOn(x + [sep] + y, sep) == [x] + SplitOn(y, sep)
  {
    var s := x + [sep] + y;
    if x == [] {
      assert s[0] == sep && s[1..] == y;
    } else {
      assert s[0] == x[0] && s[1..] == x[1..] + [sep] + y;
      SplitOnAtSep(x[1..], sep, y);
      assert [x[0]] + x[1..] == x;
    }
  }

  /** Python's `sep.join(parts)`. */
  function Join(parts: seq<string>, sep: string): string {
    if parts == [] then []
    else if |parts| == 1 then parts[0]
    else parts[0] + sep + Join(parts[1..], sep)
  }

  /** Splitting on a character and joining with it again gives the text back. */
  lemma {:induction false} JoinSplitOn(s: string, sep: char)
    ensures Join(SplitOn(s, sep), [sep]) == s
  {
    if s != [] {
      JoinSplitOn(s[1..], sep);
      var rest := SplitOn(s[1..], sep);
      if s[0] != sep {
        if |rest| == 1 {
        } else {
          assert ([[s[0]] + rest[0]] + rest[1..])[1..] == rest[1..];
        }
      }
    }
  }

  /** Every line produced by `SplitOn` occurs in the text. */
  lemma {:induction false} SplitOnPartsOccur(s: string, sep: char, i: nat)
    requires i < |SplitOn(s, sep)|
    ensures Contains(s, SplitOn(s, sep)[i])
  {
    var parts := SplitOn(s, sep);
    if s == [] || (s[0] == sep && i == 0) {
      assert StartsWith(s, parts[i]);
    } else if s[0] == sep {
      SplitOnPartsOccur(s[1..], sep, i - 1);
    } else if i == 0 {
      SplitOnFirstIsPrefix(s, sep);
    } else {
      SplitOnPartsOccur(s[1..], sep, i);
    }
  }

  /** A position at which `t` occurs in `s`. */
  lemma {:induction false} ContainsIndex(s: string, t: string) returns (k: nat)
    requires Contains(s, t)
    ensures k + |t| <= |s| && s[k..k + |t|] == t
    decreases |s|
  {
    if StartsWith(s, t) {
      k := 0;
    } else {
      var j := ContainsIndex(s[1..], t);
      k := j + 1;
      assert s[k..k + |t|] == s[1..][j..j + |t|];
    }
  }

  lemma ContainsTransitive(a: string, b: string, c: string)
    requires Contains(a, b) && Contains(b, c)
    ensures Contains(a, c)
  {
    var i := ContainsIndex(a, b);
    var j := ContainsIndex(b, c);
    forall m | 0 <= m < |c| ensures a[i + j + m] == c[m] {
      assert c[m] == b[j + m];
      assert b[j + m] == a[i + j + m];
    }
    assert a[i + j..i + j + |c|] == c;
    ContainsAt(a, c, i + j);
  }

  lemma {:induction false} SplitOnFirstIsPrefix(s: string, sep: char)
    ensures StartsWith(s, SplitOn(s, sep)[0])
  {
    if s != [] && s[0] != sep {
      SplitOnFirstIsPrefix(s[1..], sep);
    }
  }

  /** The index of the first `c` in `s`, or `|s|` when there is none (`s.find(c)` with
      `|s|` for -1). */
  function IndexOf(s: string, c: char): (k: nat)
    ensures k <= |s| && (k < |s| ==> s[k] == c)
    ensures forall i :: 0 <= i < k ==> s[i] != c
  {
    if s == [] || s[0] == c then 0 else 1 + IndexOf(s[1..], c)
  }

  lemma {:induction false} IndexOfAt(x: string, c: char, rest: string)
    requires c !in x
    ensures IndexOf(x + [c] + rest, c) == |x|
  {
    if x != [] {
      assert (x + [c] + rest)[1..] == x[1..] + [c] + rest;
      IndexOfAt(x[1..], c, rest);
    }
  }

  /** ASCII lower-casing (Python's `str.lower` on ASCII text). */
  function LowerChar(c: char): char {
    if 'A' <= c <= 'Z' then (c as int + 32) as char else c
  }

  function Lower(s: string): (r: string)
    ensures |r| == |s| && forall i :: 0 <= i < |s| ==> r[i] == LowerChar(s[i])
  {
    if s == [] then [] else [LowerChar(s[0])] + Lower(s[1..])
  }

  /** Decimal digits of a natural number, as `str(n)`. */
  function NatToString(n: nat): (r: string)
    ensures |r| >= 1 && forall i :: 0 <= i < |r| ==> IsDigit(r[i])
    decreases n
  {
    var d := ['0' + (n % 10) as char];
    if n < 10 then d else NatToString(n / 10) + d
  }

  /** `str(i)` for any integer. */
  function IntToString(i: int): string {
    if i < 0 then "-" + NatToString(-i) else NatToString(i)
  }

  /** Value of a string of decimal digits (Python's `int` on it). */
  function DigitsValue(s: string): nat
    requires forall i :: 0 <= i < |s| ==> IsDigit(s[i])
  {
    if s == [] then 0
    else
      assert IsDigit(s[|s| - 1]);
      10 * DigitsValue(s[..|s| - 1]) + (s[|s| - 1] as int - '0' as int) as nat
  }

  lemma {:induction false} NatToStringValue(n: nat)
    ensures DigitsValue(NatToString(n)) == n
    decreases n
  {
    var r := NatToString(n);
    if n >= 10 {
      NatToStringValue(n / 10);
      assert r[..|r| - 1] == NatToString(n / 10);
    }
  }

  /** Python's `f"{n:02d}"` for a natural number. */
  function Pad2(n: nat): (r: string)
    ensures |r| >= 2 && forall i :: 0 <= i < |r| ==> IsDigit(r[i])
    ensures DigitsValue(r) == n
  {
    NatToStringValue(n);
    var s := NatToString(n);
    if |s| < 2 then
      var r := "0" + s;
      assert r[..|r| - 1] == "0";
      r
    else s
  }
}
