/** The few Python `str`, `list` and slicing operations the ETL tools rely on,
    stated over `seq<char>` and `seq<T>`. */
module PyText {

  /** Python's `str.isspace` for a single character: exactly the characters that
      `str.strip()` with no argument removes. */
  predicate IsSpace(c: char)
  {
    || ('\t' <= c <= '\r')
    || ('\U{001C}' <= c <= ' ')
    || c == '\U{0085}' || c == '\U{00A0}' || c == '\U{1680}'
    || ('\U{2000}' <= c <= '\U{200A}')
    || c == '\U{2028}' || c == '\U{2029}' || c == '\U{202F}' || c == '\U{205F}' || c == '\U{3000}'
  }

  predicate AllSpace(s: string)
  {
    forall i :: 0 <= i < |s| ==> IsSpace(s[i])
  }

  /** The leading half of `s.strip()`: `s.lstrip()`. */
  function TrimLeft(s: string): string
  {
    if s != [] && IsSpace(s[0]) then TrimLeft(s[1..]) else s
  }

  /** The trailing half of `s.strip()`: `s.rstrip()`. */
  function TrimRight(s: string): string
  {
    if s != [] && IsSpace(s[|s| - 1]) then TrimRight(s[..|s| - 1]) else s
  }

  /** `s.strip()`. */
  function Strip(s: string): string
  {
    TrimRight(TrimLeft(s))
  }

  /** `lstrip` keeps the longest suffix that does not start with whitespace. */
  lemma {:induction false} TrimLeftSpec(s: string)
    ensures var r := TrimLeft(s);
      && |r| <= |s| && r == s[|s| - |r|..]
      && AllSpace(s[..|s| - |r|])
      && (r == [] || !IsSpace(r[0]))
  {
    if s != [] && IsSpace(s[0]) {
      TrimLeftSpec(s[1..]);
      var r := TrimLeft(s[1..]);
      assert s[..|s| - |r|] == [s[0]] + s[1..][..|s| - 1 - |r|];
    }
  }

  /** `rstrip` keeps the longest prefix that does not end with whitespace. */
  lemma {:induction false} TrimRightSpec(s: string)
    ensures var r := TrimRight(s);
      && |r| <= |s| && r == s[..|r|]
      && AllSpace(s[|r|..])
      && (r == [] || !IsSpace(r[|r| - 1]))
  {
    if s != [] && IsSpace(s[|s| - 1]) {
      TrimRightSpec(s[..|s| - 1]);
      var r := TrimRight(s[..|s| - 1]);
      assert s[|r|..] == s[..|s| - 1][|r|..] + [s[|s| - 1]];
    }
  }

  /** What `strip` removes is whitespace only: the result is the infix of `s` left
      once a whitespace prefix and a whitespace suffix are cut off, and it neither
      starts nor ends with whitespace. */
  lemma StripInfix(s: string) returns (i: nat)
    ensures i + |Strip(s)| <= |s| && Strip(s) == s[i..i + |Strip(s)|]
    ensures forall j :: 0 <= j < i ==> IsSpace(s[j])
    ensures forall j :: i + |Strip(s)| <= j < |s| ==> IsSpace(s[j])
    ensures Strip(s) == [] || (!IsSpace(Strip(s)[0]) && !IsSpace(Strip(s)[|Strip(s)| - 1]))
  {
    var t := TrimLeft(s);
    TrimLeftSpec(s);
    var r := TrimRight(t);
    TrimRightSpec(t);
    i := |s| - |t|;
    assert r == s[i..i + |r|];
    assert s[i + |r|..] == t[|r|..];
    assert forall j :: 0 <= j < i ==> s[j] == s[..i][j];
    assert forall j :: i + |r| <= j < |s| ==> s[j] == t[|r|..][j - i - |r|];
  }

  /** Stripping twice strips nothing more. */
  lemma StripIdempotent(s: string)
    ensures Strip(Strip(s)) == Strip(s)
  {
    var r := Strip(s);
    var _ := StripInfix(s);
    assert TrimLeft(r) == r;
    assert TrimRight(r) == r;
  }

  /** A string holding one non-whitespace character strips to a non-empty string. */
  lemma StripKeepsNonSpace(s: string, k: nat)
    requires k < |s| && !IsSpace(s[k])
    ensures Strip(s) != ""
  {
    var i := StripInfix(s);
  }

  /** A string with a non-empty strip holds a non-whitespace character. */
  lemma StripWitness(s: string) returns (k: nat)
    requires Strip(s) != ""
    ensures k < |s| && !IsSpace(s[k])
  {
    k := StripInfix(s);
    assert s[k] == Strip(s)[0];
  }

  /** `"".join(xs)`. */
  function Concat(xs: seq<string>): string
  {
    if xs == [] then "" else xs[0] + Concat(xs[1..])
  }

  lemma {:induction false} ConcatAppend(a: seq<string>, b: seq<string>)
    ensures Concat(a + b) == Concat(a) + Concat(b)
  {
    if a != [] {
      calc {
        Concat(a + b);
        (a + b)[0] + Concat((a + b)[1..]);
        { assert (a + b)[1..] == a[1..] + b; }
        a[0] + Concat(a[1..] + b);
        { ConcatAppend(a[1..], b); }
        a[0] + (Concat(a[1..]) + Concat(b));
        (a[0] + Concat(a[1..])) + Concat(b);
        Concat(a) + Concat(b);
      }
    } else {
      assert a + b == b;
    }
  }

  /** `"".join(f(x) for x in xs)`, built from the end as a loop appending to a string does. */
  function ConcatMap<T>(f: T -> string, xs: seq<T>): string
  {
    if xs == [] then "" else ConcatMap(f, xs[..|xs| - 1]) + f(xs[|xs| - 1])
  }

  /** Mapping two runs one after the other gives the two texts one after the other. */
  lemma {:induction false} ConcatMapAppend<T>(f: T -> string, xs: seq<T>, ys: seq<T>)
    ensures ConcatMap(f, xs + ys) == ConcatMap(f, xs) + ConcatMap(f, ys)
  {
    if ys == [] {
      assert xs + ys == xs;
    } else {
      var n := |ys| - 1;
      var zs := xs + ys;
      assert zs[..|zs| - 1] == xs + ys[..n];
      assert zs[|zs| - 1] == ys[n];
      var a, b, c := ConcatMap(f, xs), ConcatMap(f, ys[..n]), f(ys[n]);
      calc {
        ConcatMap(f, zs);
        ConcatMap(f, xs + ys[..n]) + c;
        { ConcatMapAppend(f, xs, ys[..n]); }
        a + b + c;
        a + (b + c);
      }
    }
  }

  /** One more element adds its text at the end. */
  lemma ConcatMapSnoc<T>(f: T -> string, xs: seq<T>, i: nat)
    requires i < |xs|
    ensures ConcatMap(f, xs[..i + 1]) == ConcatMap(f, xs[..i]) + f(xs[i])
  {
    assert xs[..i + 1][..i] == xs[..i];
  }

  /** The step of a loop that appends the text of `xs[i]` to what it built so far. */
  lemma ConcatMapStep<T>(f: T -> string, xs: seq<T>, i: nat, start: string, before: string, after: string)
    requires i < |xs|
    requires before == start + ConcatMap(f, xs[..i])
    requires after == before + f(xs[i])
    ensures after == start + ConcatMap(f, xs[..i + 1])
  {
    ConcatMapSnoc(f, xs, i);
  }

  /** Elements whose texts are all empty give the empty text. */
  lemma {:induction false} ConcatMapEmpty<T>(f: T -> string, xs: seq<T>)
    requires forall i :: 0 <= i < |xs| ==> f(xs[i]) == ""
    ensures ConcatMap(f, xs) == ""
  {
    if xs != [] {
      var n := |xs| - 1;
      assert forall i :: 0 <= i < n ==> xs[..n][i] == xs[i];
      ConcatMapEmpty(f, xs[..n]);
    }
  }

  /** A string `x` of `xs` occurs in `"".join(xs)` at some offset. */
  lemma {:induction false} ConcatHolds(xs: seq<string>, j: nat, k: nat) returns (p: nat)
    requires j < |xs| && k < |xs[j]|
    ensures p < |Concat(xs)| && Concat(xs)[p] == xs[j][k]
  {
    if j == 0 {
      p := k;
    } else {
      var q := ConcatHolds(xs[1..], j - 1, k);
      p := |xs[0]| + q;
    }
  }

  predicate StartsWith(s: string, prefix: string)
  {
    |prefix| <= |s| && s[..|prefix|] == prefix
  }

  predicate EndsWith(s: string, suffix: string)
  {
    |suffix| <= |s| && s[|s| - |suffix|..] == suffix
  }

  /** `sep.join(xs)`. */
  function JoinWith(sep: string, xs: seq<string>): string
  {
    if xs == [] then ""
    else if |xs| == 1 then xs[0]
    else xs[0] + sep + JoinWith(sep, xs[1..])
  }

  /** How often the character `c` occurs in `s` (`s.count(c)`). */
  function CountChar(c: char, s: string): nat
  {
    if s == [] then 0 else (if s[0] == c then 1 else 0) + CountChar(c, s[1..])
  }

  lemma {:induction false} CountCharAppend(c: char, a: string, b: string)
    ensures CountChar(c, a + b) == CountChar(c, a) + CountChar(c, b)
  {
    if a != [] {
      assert (a + b)[0] == a[0] && (a + b)[1..] == a[1..] + b;
      CountCharAppend(c, a[1..], b);
      assert CountChar(c, a + b) == (if a[0] == c then 1 else 0) + CountChar(c, a[1..] + b);
    } else {
      assert a + b == b;
    }
  }

  lemma {:induction false} CountCharAbsent(c: char, s: string)
    requires c !in s
    ensures CountChar(c, s) == 0
  {
    if s != [] {
      assert s[0] in s;
      assert forall x :: x in s[1..] ==> x in s;
      CountCharAbsent(c, s[1..]);
    }
  }

  /** The first position of `c` in `s` (`s.index(c)`). */
  function IndexOf(s: string, c: char): (i: nat)
    requires c in s
    ensures i < |s| && s[i] == c && c !in s[..i]
  {
    if s[0] == c then 0
    else
      assert c in s[1..];
      var i := IndexOf(s[1..], c);
      assert s[..i + 1] == [s[0]] + s[1..][..i];
      i + 1
  }

  lemma IndexOfJoined(a: string, c: char, b: string)
    requires c !in a
    ensures c in a + [c] + b && IndexOf(a + [c] + b, c) == |a|
  {
    var s := a + [c] + b;
    assert s[|a|] == c;
    var i := IndexOf(s, c);
  }

  /** `s.split(sep)` for a one-character separator: the pieces between separators,
      always at least one. */
  function SplitOn(s: string, sep: char): (pieces: seq<string>)
    ensures |pieces| >= 1
    decreases |s|
  {
    if sep !in s then [s]
    else
      var i := IndexOf(s, sep);
      [s[..i]] + SplitOn(s[i + 1..], sep)
  }

  lemma SplitOnJoined(a: string, sep: char, b: string)
    requires sep !in a
    ensures SplitOn(a + [sep] + b, sep) == [a] + SplitOn(b, sep)
  {
    var s := a + [sep] + b;
    IndexOfJoined(a, sep, b);
    assert s[..|a|] == a;
    assert s[|a| + 1..] == b;
  }
  /** The pieces written one after the other, each followed by `sep`. */
  function Terminated(pieces: seq<string>, sep: char): string
  {
    if pieces == [] then "" else pieces[0] + [sep] + Terminated(pieces[1..], sep)
  }

  /** Splitting pieces free of `sep`, each written with a trailing `sep`, gives them
      back followed by the empty piece after the last separator. */
  lemma {:induction false} SplitTerminated(pieces: seq<string>, sep: char)
    requires forall i :: 0 <= i < |pieces| ==> sep !in pieces[i]
    ensures SplitOn(Terminated(pieces, sep), sep) == pieces + [""]
  {
    if pieces == [] {
      assert sep !in "";
    } else {
      var rest := pieces[1..];
      var tail := Terminated(rest, sep);
      assert sep !in pieces[0];
      assert forall i :: 0 <= i < |rest| ==> sep !in rest[i] by {
        forall i | 0 <= i < |rest|
          ensures sep !in rest[i]
        {
          assert rest[i] == pieces[i + 1];
        }
      }
      calc {
        SplitOn(Terminated(pieces, sep), sep);
        SplitOn(pieces[0] + [sep] + tail, sep);
        { SplitOnJoined(pieces[0], sep, tail); }
        [pieces[0]] + SplitOn(tail, sep);
        { SplitTerminated(rest, sep); }
        [pieces[0]] + (rest + [""]);
        { assert pieces == [pieces[0]] + rest; }
        pieces + [""];
      }
    }
  }


  /** Python's normalisation of one slice bound against a length `n`
      (negative bounds count from the end; out-of-range bounds are clamped). */
  function SliceBound(i: int, n: nat): (b: nat)
    ensures b <= n
    ensures 0 <= i <= n ==> b == i
    ensures -(n as int) <= i < 0 ==> b as int == n as int + i
  {
    if i < 0 then (if i + n < 0 then 0 else i + n)
    else if i > n then n
    else i
  }

  /** `xs[i:j]` with Python's slicing rules: it never fails, and yields `[]` when
      the normalised bounds cross. */
  function PySlice<T>(xs: seq<T>, i: int, j: int): (r: seq<T>)
    ensures |r| <= |xs|
    ensures 0 <= i <= j <= |xs| ==> r == xs[i..j]
  {
    var a := SliceBound(i, |xs|);
    var b := SliceBound(j, |xs|);
    if a < b then xs[a..b] else []
  }
}
