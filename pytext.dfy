/**
 * The few Python `str` operations the song tools use, on `seq<char>`.
 * Case mapping and `isspace` follow Python on the characters that matter
 * here: case mapping is ASCII only, `isspace` is Python's full list.
 */
module PyText {

  /** Python's `str.isspace` for a single character. */
  predicate IsSpace(c: char)
  {
    || c == ' ' || '\t' <= c <= '\r' || '\U{1c}' <= c <= '\U{1f}'
    || c == '\U{85}' || c == '\U{a0}' || c == '\U{1680}'
    || '\U{2000}' <= c <= '\U{200a}' || c == '\U{2028}' || c == '\U{2029}'
    || c == '\U{202f}' || c == '\U{205f}' || c == '\U{3000}'
  }

  predicate IsUpper(c: char) { 'A' <= c <= 'Z' }
  predicate IsLower(c: char) { 'a' <= c <= 'z' }
  predicate IsLetter(c: char) { IsUpper(c) || IsLower(c) }
  predicate IsDigit(c: char) { '0' <= c <= '9' }

  function ToLower(c: char): (r: char)
    ensures !IsUpper(r)
    ensures IsLetter(c) <==> IsLetter(r)
  {
    if IsUpper(c) then (c as int + 32) as char else c
  }

  function ToUpper(c: char): (r: char)
    ensures !IsLower(r)
    ensures IsLetter(c) <==> IsLetter(r)
  {
    if IsLower(c) then (c as int - 32) as char else c
  }

  /** `s.lower()` */
  function Lower(s: string): (r: string)
    ensures |r| == |s|
    ensures forall i :: 0 <= i < |s| ==> r[i] == ToLower(s[i])
  {
    seq(|s|, i requires 0 <= i < |s| => ToLower(s[i]))
  }

  /** Case-insensitive equality, as a regular expression compiled with IGNORECASE compares letters. */
  predicate EqualsIgnoreCase(a: string, b: string)
  {
    Lower(a) == Lower(b)
  }

  /** `s` starts with `prefix`, ignoring case. */
  predicate StartsWithIgnoreCase(s: string, prefix: string)
  {
    |prefix| <= |s| && EqualsIgnoreCase(s[..|prefix|], prefix)
  }

  /** Python's `str.title`: a letter is upper-cased when the character before it is not a letter, and
      lower-cased otherwise. */
  function Title(s: string): (r: string)
    ensures |r| == |s|
  {
    TitleAfter(s, false)
  }

  function TitleAfter(s: string, afterLetter: bool): (r: string)
    ensures |r| == |s|
  {
    if s == [] then []
    else
      var c := if afterLetter then ToLower(s[0]) else ToUpper(s[0]);
      [c] + TitleAfter(s[1..], IsLetter(s[0]))
  }

  /** The `i`-th character of a title-cased string: lower-cased right after a letter, upper-cased otherwise. */
  function TitleCharAt(s: string, afterLetter: bool, i: nat): char
    requires i < |s|
  {
    var prev := if i == 0 then afterLetter else IsLetter(s[i - 1]);
    if prev then ToLower(s[i]) else ToUpper(s[i])
  }

  /** `TitleAfter` agrees with its character-by-character description. */
  lemma {:induction false} TitleAfterExact(s: string, afterLetter: bool)
    ensures forall i :: 0 <= i < |s| ==> TitleAfter(s, afterLetter)[i] == TitleCharAt(s, afterLetter, i)
  {
    if s != [] {
      var rest := s[1..];
      TitleAfterExact(rest, IsLetter(s[0]));
      forall i | 1 <= i < |s| ensures TitleAfter(s, afterLetter)[i] == TitleCharAt(s, afterLetter, i) {
        assert TitleAfter(s, afterLetter)[i] == TitleAfter(rest, IsLetter(s[0]))[i - 1];
        assert rest[i - 1] == s[i];
        if i > 1 { assert rest[i - 2] == s[i - 1]; }
      }
    }
  }

  /** Title-casing changes only the case of letters. */
  lemma TitleLower(s: string)
    ensures EqualsIgnoreCase(Title(s), s)
  {
    TitleAfterExact(s, false);
    forall i | 0 <= i < |s| ensures ToLower(Title(s)[i]) == ToLower(s[i]) {
      var c := TitleCharAt(s, false, i);
      assert ToLower(c) == ToLower(s[i]);
    }
  }

  /** Python's `str.capitalize`: the first character upper-cased, every other one lower-cased. */
  function Capitalize(s: string): (r: string)
    ensures |r| == |s|
    ensures Lower(r) == Lower(s)
    ensures r != [] ==> !IsLower(r[0])
    ensures forall i :: 1 <= i < |r| ==> !IsUpper(r[i])
  {
    if s == [] then [] else [ToUpper(s[0])] + Lower(s[1..])
  }

  /** Replaces every `from` with `to`, as `s.replace(from, to)` does for single characters. */
  function ReplaceChar(s: string, from: char, to: char): (r: string)
    ensures |r| == |s|
    ensures from != to ==> from !in r
    ensures forall i :: 0 <= i < |s| && s[i] != from ==> r[i] == s[i]
    ensures forall i :: 0 <= i < |s| && s[i] == from ==> r[i] == to
  {
    seq(|s|, i requires 0 <= i < |s| => if s[i] == from then to else s[i])
  }

  /** `s.lstrip()`: what remains is a suffix of `s` that does not start with white space. */
  function LStrip(s: string): (r: string)
    ensures |r| <= |s| && r == s[|s| - |r|..]
    ensures forall i :: 0 <= i < |s| - |r| ==> IsSpace(s[i])
    ensures r == [] || !IsSpace(r[0])
  {
    if s != [] && IsSpace(s[0]) then LStrip(s[1..]) else s
  }

  /** `s.rstrip()`: what remains is a prefix of `s` that does not end with white space. */
  function RStrip(s: string): (r: string)
    ensures |r| <= |s| && r == s[..|r|]
    ensures forall i :: |r| <= i < |s| ==> IsSpace(s[i])
    ensures r == [] || !IsSpace(r[|r| - 1])
  {
    if s != [] && IsSpace(s[|s| - 1]) then RStrip(s[..|s| - 1]) else s
  }

  /** Where the text left by `s.strip()` starts. */
  function StripStart(s: string): (i: nat)
    ensures i <= |s|
  {
    |s| - |LStrip(s)|
  }

  /** `s.strip()`: removes the white space at both ends and nothing else. */
  function Strip(s: string): (r: string)
    ensures StripStart(s) + |r| <= |s| && r == s[StripStart(s)..StripStart(s) + |r|]
    ensures forall k :: 0 <= k < StripStart(s) ==> IsSpace(s[k])
    ensures forall k :: StripStart(s) + |r| <= k < |s| ==> IsSpace(s[k])
    ensures r == [] || (!IsSpace(r[0]) && !IsSpace(r[|r| - 1]))
  {
    RStrip(LStrip(s))
  }

  /** A string of white space only strips to the empty string, and only such a string does. */
  lemma StripEmptyIffAllSpace(s: string)
    ensures Strip(s) == [] <==> forall i :: 0 <= i < |s| ==> IsSpace(s[i])
  {
  }

  /** Stripping twice changes nothing more. */
  lemma StripIdempotent(s: string)
    ensures Strip(Strip(s)) == Strip(s)
  {
    var r := Strip(s);
    assert LStrip(r) == r;
    assert RStrip(r) == r;
  }

  /** `s.find(c)`: the first index of `c`, or -1. */
  function Find(s: string, c: char): (r: int)
    ensures r == -1 <==> c !in s
    ensures r != -1 ==> 0 <= r < |s| && s[r] == c && c !in s[..r]
  {
    if s == [] then -1
    else if s[0] == c then 0
    else
      var k := Find(s[1..], c);
      assert s[1..][..if k == -1 then 0 else k] == s[1..1 + if k == -1 then 0 else k];
      if k == -1 then -1 else k + 1
  }

  /** `s.rfind(c)`: the last index of `c`, or -1. */
  function RFind(s: string, c: char): (r: int)
    ensures r == -1 <==> c !in s
    ensures r != -1 ==> 0 <= r < |s| && s[r] == c && c !in s[r + 1..]
  {
    if s == [] then -1
    else if s[|s| - 1] == c then |s| - 1
    else
      var k := RFind(s[..|s| - 1], c);
      assert k != -1 ==> s[k + 1..] == s[..|s| - 1][k + 1..] + [s[|s| - 1]];
      k
  }

  /** `sep.join(parts)` */
  function Join(parts: seq<string>, sep: string): (r: string)
  {
    if |parts| == 0 then []
    else if |parts| == 1 then parts[0]
    else parts[0] + sep + Join(parts[1..], sep)
  }

  /** `s.split(sep)` for a one-character separator: never an empty list, no piece holds the separator,
      and joining the pieces back gives `s`. */
  function Split(s: string, sep: char): (r: seq<string>)
    ensures |r| >= 1
    ensures forall p :: p in r ==> sep !in p
    ensures Join(r, [sep]) == s
  {
    var k := Find(s, sep);
    if k == -1 then [s]
    else
      var rest := Split(s[k + 1..], sep);
      var r := [s[..k]] + rest;
      assert r[0] == s[..k] && r[1..] == rest && |r| >= 2;
      assert Join(r, [sep]) == s[..k] + [sep] + Join(rest, [sep]);
      assert s == s[..k] + [sep] + s[k + 1..];
      assert forall p :: p in r ==> p == s[..k] || p in rest;
      r
  }

  /** Splitting undoes joining when no piece holds the separator. */
  lemma {:induction false} SplitJoin(parts: seq<string>, sep: char)
    requires |parts| >= 1
    requires forall p :: p in parts ==> sep !in p
    ensures Split(Join(parts, [sep]), sep) == parts
  {
    if |parts| == 1 {
      assert Find(parts[0], sep) == -1;
    } else {
      var s := Join(parts, [sep]);
      var p := parts[0];
      assert s == p + [sep] + Join(parts[1..], [sep]);
      assert s[..|p|] == p;
      assert Find(s, sep) == |p| by {
        FindAfterPrefix(p, Join(parts[1..], [sep]), sep);
      }
      assert s[|p| + 1..] == Join(parts[1..], [sep]);
      SplitJoin(parts[1..], sep);
    }
  }

  lemma FindAfterPrefix(p: string, rest: string, c: char)
    requires c !in p
    ensures Find(p + [c] + rest, c) == |p|
  {
    var s := p + [c] + rest;
    assert s[|p|] == c;
    assert forall j :: 0 <= j < |p| ==> s[j] == p[j];
  }

  /** Splitting is a homomorphism over a separator: the pieces of `a + sep + b` are those of `a`
      followed by those of `b`. */
  lemma SplitAround(a: string, b: string, sep: char)
    ensures Split(a + [sep] + b, sep) == Split(a, sep) + Split(b, sep)
  {
    var pa, pb := Split(a, sep), Split(b, sep);
    JoinAppend(pa, pb, [sep]);
    SplitJoin(pa + pb, sep);
  }

  lemma {:induction false} JoinAppend(xs: seq<string>, ys: seq<string>, sep: string)
    requires |xs| >= 1 && |ys| >= 1
    ensures Join(xs + ys, sep) == Join(xs, sep) + sep + Join(ys, sep)
  {
    if |xs| == 1 {
      assert (xs + ys)[1..] == ys;
    } else {
      assert (xs + ys)[1..] == xs[1..] + ys;
      JoinAppend(xs[1..], ys, sep);
    }
  }

  /** The digits of a natural number, most significant first. */
  function NatToStr(n: nat): (r: string)
    ensures |r| >= 1
    ensures forall c :: c in r ==> IsDigit(c)
    ensures r[0] == '0' ==> n == 0 && r == "0"
    decreases n
  {
    if n < 10 then [Digit(n)] else NatToStr(n / 10) + [Digit(n % 10)]
  }

  function Digit(d: nat): (c: char)
    requires d < 10
    ensures IsDigit(c)
  {
    ('0' as int + d) as char
  }

  /** `str(i)` for an integer: its decimal digits, with a leading `-` when negative. */
  function IntToStr(i: int): (r: string)
    ensures |r| >= 1
    ensures forall k :: 0 <= k < |r| ==> IsDigit(r[k]) || (k == 0 && r[k] == '-')
    ensures r[0] == '-' <==> i < 0
    ensures r[0] == '-' ==> |r| >= 2
    ensures i == if r[0] == '-' then -DecimalValue(r[1..]) else DecimalValue(r)
    ensures (if r[0] == '-' then r[1..] else r)[0] == '0' ==> i == 0 && r == "0"
  {
    if i < 0 then
      var d := NatToStr(-i);
      NatToStrRoundTrip(-i);
      assert ("-" + d)[1..] == d;
      "-" + d
    else
      var d := NatToStr(i);
      NatToStrRoundTrip(i);
      assert d[0] in d;
      d
  }

  /** The value of a string of decimal digits. */
  function DecimalValue(s: string): int
    requires forall c :: c in s ==> IsDigit(c)
  {
    if s == [] then 0 else 10 * DecimalValue(s[..|s| - 1]) + (s[|s| - 1] as int - '0' as int)
  }

  /** Reading the digits back gives the number: `int(str(n)) == n`. */
  lemma {:induction false} NatToStrRoundTrip(n: nat)
    ensures DecimalValue(NatToStr(n)) == n
    decreases n
  {
    var s := NatToStr(n);
    if n >= 10 {
      NatToStrRoundTrip(n / 10);
      assert s[..|s| - 1] == NatToStr(n / 10);
    }
  }
}
