/** `String#pad_numbers` and the "installed agent is good enough" version test. */
module Versions {

  // ---------------------------------------------------------------------------
  // Digits and numerals
  // ---------------------------------------------------------------------------

  /** Ruby's `\d`: ASCII digits only. */
  predicate IsDigit(c: char) { '0' <= c <= '9' }

  predicate AllDigits(s: string) { forall i :: 0 <= i < |s| ==> IsDigit(s[i]) }

  function DigitValue(c: char): (d: nat)
    requires IsDigit(c)
    ensures d < 10
  {
    c as int - '0' as int
  }

  function DigitChar(d: nat): (c: char)
    requires d < 10
    ensures IsDigit(c) && DigitValue(c) == d
  {
    ('0' as int + d) as char
  }

  function Pow10(n: nat): (p: nat)
    ensures p >= 1
  {
    if n == 0 then 1 else 10 * Pow10(n - 1)
  }

  /** The number a digit string denotes, leading zeros allowed (`to_i` of a `\d+` match). */
  function Value(s: string): nat
    requires AllDigits(s)
  {
    if s == [] then 0 else DigitValue(s[0]) * Pow10(|s| - 1) + Value(s[1..])
  }

  /** `sprintf("%d", n)` for n >= 0: digits only, no leading zero, denotes n. */
  function Decimal(n: nat): (r: string)
    ensures |r| >= 1 && AllDigits(r)
    ensures Value(r) == n
    ensures r[0] == '0' ==> n == 0
  {
    if n < 10 then
      [DigitChar(n)]
    else
      var front := Decimal(n / 10);
      ValueSnoc(front, DigitChar(n % 10));
      front + [DigitChar(n % 10)]
  }

  function Zeros(k: nat): (r: string)
    ensures |r| == k && AllDigits(r)
  {
    seq(k, _ => '0')
  }

  /** `sprintf("%04d", n)` for n >= 0. */
  function Pad4(n: nat): (r: string)
    ensures AllDigits(r) && Value(r) == n
    ensures n < 10000 ==> |r| == 4
    ensures n >= 10000 ==> |r| > 4 && r[0] != '0'
  {
    var d := Decimal(n);
    DecimalLength(n, 4);
    if |d| < 4 then
      ValueZeros(4 - |d|, d);
      Zeros(4 - |d|) + d
    else
      d
  }

  lemma MulLe(a: int, b: int, c: nat)
    requires a <= b
    ensures a * c <= b * c
  {
  }

  lemma {:induction false} ValueBound(s: string)
    requires AllDigits(s)
    ensures Value(s) < Pow10(|s|)
  {
    if s != [] {
      ValueBound(s[1..]);
      MulLe(DigitValue(s[0]), 9, Pow10(|s| - 1));
    }
  }

  lemma {:induction false} ValueSnoc(s: string, c: char)
    requires AllDigits(s) && IsDigit(c)
    ensures AllDigits(s + [c])
    ensures Value(s + [c]) == 10 * Value(s) + DigitValue(c)
  {
    var t := s + [c];
    if s != [] {
      assert t[1..] == s[1..] + [c];
      ValueSnoc(s[1..], c);
      var d, p := DigitValue(s[0]), Pow10(|s| - 1);
      assert t[0] == s[0] && |t| - 1 == |s|;
      assert Value(t) == d * Pow10(|s|) + Value(t[1..]);
      ShiftDigit(d, p);
    } else {
      assert t == [c] && t[1..] == [];
    }
  }

  lemma ShiftDigit(d: nat, p: nat)
    ensures d * (10 * p) == 10 * (d * p)
  {
  }

  lemma {:induction false} ValueZeros(k: nat, d: string)
    requires AllDigits(d)
    ensures AllDigits(Zeros(k) + d)
    ensures Value(Zeros(k) + d) == Value(d)
  {
    if k > 0 {
      assert (Zeros(k) + d)[1..] == Zeros(k - 1) + d;
      ValueZeros(k - 1, d);
    } else {
      assert Zeros(k) + d == d;
    }
  }

  /** A numeral fits in k digits exactly when the number is below 10^k. */
  lemma {:induction false} DecimalLength(n: nat, k: nat)
    requires k >= 1
    ensures |Decimal(n)| <= k <==> n < Pow10(k)
  {
    if n >= 10 {
      if k >= 2 {
        DecimalLength(n / 10, k - 1);
      } else {
        assert Pow10(1) == 10;
        ValueBound(Decimal(n));
      }
    } else {
      assert Pow10(k) >= 10 by { Pow10AtLeast(k); }
    }
    if |Decimal(n)| <= k {
      ValueBound(Decimal(n));
      Pow10Monotone(|Decimal(n)|, k);
    }
  }

  lemma {:induction false} Pow10AtLeast(k: nat)
    requires k >= 1
    ensures Pow10(k) >= 10
  {
    if k > 1 { Pow10AtLeast(k - 1); }
  }

  lemma {:induction false} Pow10Monotone(i: nat, j: nat)
    requires i <= j
    ensures Pow10(i) <= Pow10(j)
  {
    if i < j { Pow10Monotone(i, j - 1); }
  }

  // ---------------------------------------------------------------------------
  // String#pad_numbers: gsub(/\d+/) { |num| sprintf("%04d", num.to_i) }
  // ---------------------------------------------------------------------------

  /** Length of the maximal run of digits that starts the string. */
  function RunLength(s: string): (k: nat)
    ensures k <= |s|
    ensures k < |s| ==> !IsDigit(s[k])
  {
    if s == [] || !IsDigit(s[0]) then 0 else 1 + RunLength(s[1..])
  }

  /** The run RunLength measures is made of digits. */
  lemma {:induction false} RunDigits(s: string)
    ensures AllDigits(s[..RunLength(s)])
    decreases |s|
  {
    if s != [] && IsDigit(s[0]) {
      RunDigits(s[1..]);
      assert s[..RunLength(s)] == [s[0]] + s[1..][..RunLength(s[1..])];
    }
  }

  function PadNumbers(s: string): string
    decreases |s|
  {
    if s == [] then
      []
    else if IsDigit(s[0]) then
      var k := RunLength(s);
      RunDigits(s);
      Pad4(Value(s[..k])) + PadNumbers(s[k..])
    else
      [s[0]] + PadNumbers(s[1..])
  }

  /** The characters of s that are not digits, in order. */
  function NonDigits(s: string): (r: string)
    ensures |r| <= |s|
  {
    if s == [] then [] else (if IsDigit(s[0]) then [] else [s[0]]) + NonDigits(s[1..])
  }

  lemma {:induction false} RunLengthIs(s: string, k: nat)
    requires k <= |s|
    requires forall i :: 0 <= i < k ==> IsDigit(s[i])
    requires k < |s| ==> !IsDigit(s[k])
    ensures RunLength(s) == k
  {
    if k > 0 {
      RunLengthIs(s[1..], k - 1);
    }
  }

  /** A whole digit run becomes its padded value. */
  lemma {:induction false} PadDigitRun(d: string)
    requires AllDigits(d) && d != []
    ensures PadNumbers(d) == Pad4(Value(d))
  {
    RunLengthIs(d, |d|);
    assert d[..|d|] == d;
  }

  /** pad_numbers works piecewise when the cut does not split a digit run. */
  lemma {:induction false} PadConcat(a: string, b: string)
    requires a == [] || b == [] || !IsDigit(a[|a| - 1]) || !IsDigit(b[0])
    ensures PadNumbers(a + b) == PadNumbers(a) + PadNumbers(b)
    decreases |a|
  {
    if a == [] {
      assert a + b == b;
    } else if b == [] {
      assert a + b == a;
    } else if !IsDigit(a[0]) {
      PadConcatText(a, b);
    } else if RunLength(a) == |a| {
      PadConcatWholeRun(a, b);
    } else {
      PadConcatPartRun(a, b);
    }
  }

  lemma {:induction false} PadConcatText(a: string, b: string)
    requires a != [] && !IsDigit(a[0])
    requires b == [] || !IsDigit(a[|a| - 1]) || !IsDigit(b[0])
    ensures PadNumbers(a + b) == PadNumbers(a) + PadNumbers(b)
    decreases |a|, 0
  {
    assert (a + b)[0] == a[0];
    assert (a + b)[1..] == a[1..] + b;
    PadConcat(a[1..], b);
  }

  lemma {:induction false} PadConcatWholeRun(a: string, b: string)
    requires a != [] && IsDigit(a[0]) && RunLength(a) == |a|
    requires b == [] || !IsDigit(a[|a| - 1]) || !IsDigit(b[0])
    ensures PadNumbers(a + b) == PadNumbers(a) + PadNumbers(b)
  {
    var k := |a|;
    RunDigits(a);
    assert a[..k] == a;
    assert IsDigit(a[k - 1]);
    RunLengthIs(a + b, k);
    assert (a + b)[..k] == a;
    assert (a + b)[k..] == b;
    PadDigitRun(a);
  }

  lemma {:induction false} PadConcatPartRun(a: string, b: string)
    requires a != [] && IsDigit(a[0]) && RunLength(a) < |a|
    requires b == [] || !IsDigit(a[|a| - 1]) || !IsDigit(b[0])
    ensures PadNumbers(a + b) == PadNumbers(a) + PadNumbers(b)
    decreases |a|, 0
  {
    var k := RunLength(a);
    PadRunUnfold(a);
    CutRun(a, b, k);
    PadRunUnfold(a + b);
    PadConcat(a[k..], b);
    AppendAssoc(Pad4(Value(a[..k])), PadNumbers(a[k..]), PadNumbers(b));
  }

  /** One step of pad_numbers at a leading digit run. */
  lemma PadRunUnfold(s: string)
    requires s != [] && IsDigit(s[0])
    ensures AllDigits(s[..RunLength(s)])
    ensures PadNumbers(s) == Pad4(Value(s[..RunLength(s)])) + PadNumbers(s[RunLength(s)..])
  {
    RunDigits(s);
  }

  lemma AppendAssoc(x: string, y: string, z: string)
    ensures (x + y) + z == x + (y + z)
  {
  }

  lemma CutRun(a: string, b: string, k: nat)
    requires a != [] && k == RunLength(a) < |a|
    ensures RunLength(a + b) == k
    ensures (a + b)[..k] == a[..k] && (a + b)[k..] == a[k..] + b
    ensures a[k..] != [] && a[k..][|a[k..]| - 1] == a[|a| - 1]
  {
    RunDigits(a);
    assert forall i :: 0 <= i < k ==> (a + b)[i] == a[..k][i];
    RunLengthIs(a + b, k);
    assert (a + b)[..k] == a[..k];
    assert (a + b)[k..] == a[k..] + b;
  }

  lemma PadFirst(s: string)
    ensures s == [] ==> PadNumbers(s) == []
    ensures s != [] && !IsDigit(s[0]) ==> PadNumbers(s) != [] && PadNumbers(s)[0] == s[0]
  {
  }

  /** Non-digit characters survive, in their order. */
  lemma {:induction false} PadKeepsNonDigits(s: string)
    ensures NonDigits(PadNumbers(s)) == NonDigits(s)
    decreases |s|
  {
    if s != [] {
      if IsDigit(s[0]) {
        var k := RunLength(s);
        RunDigits(s);
        PadKeepsNonDigits(s[k..]);
        NonDigitsConcat(Pad4(Value(s[..k])), PadNumbers(s[k..]));
        NoNonDigits(Pad4(Value(s[..k])));
        assert s == s[..k] + s[k..];
        NonDigitsConcat(s[..k], s[k..]);
        NoNonDigits(s[..k]);
      } else {
        PadKeepsNonDigits(s[1..]);
        assert ([s[0]] + PadNumbers(s[1..]))[1..] == PadNumbers(s[1..]);
      }
    }
  }

  lemma {:induction false} NonDigitsConcat(a: string, b: string)
    ensures NonDigits(a + b) == NonDigits(a) + NonDigits(b)
  {
    if a == [] {
      assert a + b == b;
    } else {
      assert (a + b)[1..] == a[1..] + b;
      NonDigitsConcat(a[1..], b);
    }
  }

  lemma {:induction false} NoNonDigits(d: string)
    requires AllDigits(d)
    ensures NonDigits(d) == []
  {
    if d != [] { NoNonDigits(d[1..]); }
  }

  /** A string without digits is left as it is. */
  lemma {:induction false} PadWithoutDigits(s: string)
    requires forall i :: 0 <= i < |s| ==> !IsDigit(s[i])
    ensures PadNumbers(s) == s
  {
    if s != [] {
      PadWithoutDigits(s[1..]);
    }
  }

  /** One maximal digit run d, between a non-digit (or the start) and a non-digit (or the end),
      is replaced by its value formatted with "%04d"; the text around it is padded independently. */
  lemma {:induction false} PadEachRun(t: string, d: string, u: string)
    requires AllDigits(d) && d != []
    requires t == [] || !IsDigit(t[|t| - 1])
    requires u == [] || !IsDigit(u[0])
    ensures PadNumbers(t + (d + u)) == PadNumbers(t) + (Pad4(Value(d)) + PadNumbers(u))
  {
    PadRunThenText(d, u);
    PadTextThenRun(t, d + u);
  }

  lemma {:induction false} PadTextThenRun(t: string, du: string)
    requires du != [] && IsDigit(du[0])
    requires t == [] || !IsDigit(t[|t| - 1])
    ensures PadNumbers(t + du) == PadNumbers(t) + PadNumbers(du)
  {
    PadConcat(t, du);
  }

  lemma {:induction false} PadRunThenText(d: string, u: string)
    requires AllDigits(d) && d != []
    requires u == [] || !IsDigit(u[0])
    ensures PadNumbers(d + u) == Pad4(Value(d)) + PadNumbers(u)
  {
    PadConcat(d, u);
    PadDigitRun(d);
  }

  /** Padding an already padded string changes nothing. */
  lemma {:induction false} PadIdempotent(s: string)
    ensures PadNumbers(PadNumbers(s)) == PadNumbers(s)
    decreases |s|
  {
    if s != [] {
      if IsDigit(s[0]) {
        var k := RunLength(s);
        RunDigits(s);
        var p := Pad4(Value(s[..k]));
        var rest := s[k..];
        PadFirst(rest);
        PadConcat(p, PadNumbers(rest));
        PadDigitRun(p);
        PadIdempotent(rest);
      } else {
        var x := PadNumbers(s[1..]);
        assert ([s[0]] + x)[1..] == x;
        PadIdempotent(s[1..]);
      }
    }
  }

  // ---------------------------------------------------------------------------
  // Dotted version numbers: /^\d+\.\d+(?:\.\d+(?:\.\d+)?)?$/
  // ---------------------------------------------------------------------------

  /** The pieces of s between occurrences of sep (Ruby's `split(sep, -1)`). */
  function Split(s: string, sep: char): (parts: seq<string>)
    ensures |parts| >= 1
    ensures forall i :: 0 <= i < |parts| ==> sep !in parts[i]
    decreases |s|
  {
    if s == [] then
      [[]]
    else
      var rest := Split(s[1..], sep);
      if s[0] == sep then [[]] + rest else [[s[0]] + rest[0]] + rest[1..]
  }

  function Join(parts: seq<string>, sep: char): string
    requires |parts| >= 1
  {
    if |parts| == 1 then parts[0] else parts[0] + [sep] + Join(parts[1..], sep)
  }

  lemma {:induction false} JoinSplit(s: string, sep: char)
    ensures Join(Split(s, sep), sep) == s
    decreases |s|
  {
    if s != [] {
      JoinSplit(s[1..], sep);
      var rest := Split(s[1..], sep);
      if s[0] != sep && |rest| > 1 {
        var parts := Split(s, sep);
        assert parts[1..] == rest[1..];
        assert Join(rest, sep) == rest[0] + [sep] + Join(rest[1..], sep);
      }
    }
  }

  /** The whole string is two to four dot-separated digit groups. */
  predicate IsDotted(s: string)
  {
    var g := Split(s, '.');
    2 <= |g| <= 4 && forall i :: 0 <= i < |g| ==> g[i] != [] && AllDigits(g[i])
  }

  predicate DigitGroups(gs: seq<string>)
  {
    forall i :: 0 <= i < |gs| ==> gs[i] != [] && AllDigits(gs[i]) && '.' !in gs[i]
  }

  function Values(gs: seq<string>): (r: seq<nat>)
    requires DigitGroups(gs)
    ensures |r| == |gs|
  {
    if gs == [] then [] else [Value(gs[0])] + Values(gs[1..])
  }

  /** The numeric segments of a dotted version, in order. */
  function Segments(s: string): (r: seq<nat>)
    requires IsDotted(s)
    ensures 2 <= |r| <= 4
  {
    Values(Split(s, '.'))
  }

  predicate SmallSegments(xs: seq<nat>) { forall i :: 0 <= i < |xs| ==> xs[i] < 10000 }

  /** Segment-wise numeric order; a proper prefix is smaller ("1.2" before "1.2.1"). */
  predicate NumLess(xs: seq<nat>, ys: seq<nat>)
  {
    if xs == [] then ys != []
    else ys != [] && (xs[0] < ys[0] || (xs[0] == ys[0] && NumLess(xs[1..], ys[1..])))
  }

  /** Ruby's String#<: code-point order (the byte order of UTF-8), a proper prefix is smaller. */
  predicate LexLess(a: string, b: string)
  {
    if a == [] then b != []
    else b != [] && (a[0] < b[0] || (a[0] == b[0] && LexLess(a[1..], b[1..])))
  }

  /** `pad_numbers` of a dotted version: each segment as "%04d", joined by dots. */
  function PadJoin(xs: seq<nat>): string
    requires |xs| >= 1
  {
    if |xs| == 1 then Pad4(xs[0]) else Pad4(xs[0]) + ['.'] + PadJoin(xs[1..])
  }

  lemma {:induction false} PadGroups(gs: seq<string>)
    requires |gs| >= 1 && DigitGroups(gs)
    ensures PadNumbers(Join(gs, '.')) == PadJoin(Values(gs))
  {
    var g := gs[0];
    assert Values(gs) == [Value(g)] + Values(gs[1..]);
    if |gs| > 1 {
      var j := Join(gs[1..], '.');
      assert Join(gs, '.') == g + (['.'] + j);
      PadGroupThenDot(g, j);
      PadGroups(gs[1..]);
    } else {
      PadDigitRun(g);
    }
  }

  /** A digit group followed by a dot: the group is padded, the dot kept, the rest padded on. */
  lemma PadGroupThenDot(g: string, j: string)
    requires g != [] && AllDigits(g)
    ensures PadNumbers(g + (['.'] + j)) == Pad4(Value(g)) + ['.'] + PadNumbers(j)
  {
    PadDigitRun(g);
    PadConcat(g, ['.'] + j);
    assert (['.'] + j)[1..] == j;
  }

  lemma {:induction false} LexCommonPrefix(p: string, a: string, b: string)
    ensures LexLess(p + a, p + b) == LexLess(a, b)
  {
    if p != [] {
      assert (p + a)[1..] == p[1..] + a;
      assert (p + b)[1..] == p[1..] + b;
      LexCommonPrefix(p[1..], a, b);
    } else {
      assert p + a == a && p + b == b;
    }
  }

  lemma {:induction false} LexFirstDifference(p: string, q: string, a: string, b: string)
    requires |p| == |q| && p != q
    ensures LexLess(p + a, q + b) == LexLess(p, q)
  {
    if p[0] == q[0] {
      assert p[1..] != q[1..] by { assert p == [p[0]] + p[1..] && q == [q[0]] + q[1..]; }
      assert (p + a)[1..] == p[1..] + a;
      assert (q + b)[1..] == q[1..] + b;
      LexFirstDifference(p[1..], q[1..], a, b);
    }
  }

  /** For numerals of equal length, string order is numeric order. */
  lemma {:induction false} LexDigitsIsNumeric(a: string, b: string)
    requires |a| == |b| && AllDigits(a) && AllDigits(b)
    ensures LexLess(a, b) <==> Value(a) < Value(b)
  {
    if a != [] {
      if a[0] < b[0] {
        FirstDigitDecides(a, b);
      } else if b[0] < a[0] {
        FirstDigitDecides(b, a);
      } else {
        LexDigitsIsNumeric(a[1..], b[1..]);
      }
    }
  }

  lemma FirstDigitDecides(a: string, b: string)
    requires |a| == |b| && AllDigits(a) && AllDigits(b)
    requires a != [] && a[0] < b[0]
    ensures Value(a) < Value(b)
  {
    var p := Pow10(|a| - 1);
    var x, y := DigitValue(a[0]), DigitValue(b[0]);
    ValueBound(a[1..]);
    MulLe(x + 1, y, p);
    assert (x + 1) * p == x * p + p;
    assert Value(a) == x * p + Value(a[1..]);
    assert Value(b) == y * p + Value(b[1..]);
  }

  lemma Pad4Order(x: nat, y: nat)
    requires x < 10000 && y < 10000
    ensures LexLess(Pad4(x), Pad4(y)) <==> x < y
    ensures Pad4(x) == Pad4(y) <==> x == y
  {
    LexDigitsIsNumeric(Pad4(x), Pad4(y));
  }

  lemma {:induction false} PadJoinOrder(xs: seq<nat>, ys: seq<nat>)
    requires |xs| >= 1 && |ys| >= 1 && SmallSegments(xs) && SmallSegments(ys)
    ensures LexLess(PadJoin(xs), PadJoin(ys)) <==> NumLess(xs, ys)
  {
    var p, q := Pad4(xs[0]), Pad4(ys[0]);
    var tx := if |xs| == 1 then [] else ['.'] + PadJoin(xs[1..]);
    var ty := if |ys| == 1 then [] else ['.'] + PadJoin(ys[1..]);
    assert PadJoin(xs) == p + tx;
    assert PadJoin(ys) == q + ty;
    Pad4Order(xs[0], ys[0]);
    if xs[0] != ys[0] {
      LexFirstDifference(p, q, tx, ty);
    } else {
      LexCommonPrefix(p, tx, ty);
      if |xs| > 1 && |ys| > 1 {
        LexCommonPrefix(['.'], PadJoin(xs[1..]), PadJoin(ys[1..]));
        assert ['.'] + PadJoin(xs[1..]) == tx;
        PadJoinOrder(xs[1..], ys[1..]);
      }
    }
  }

  lemma DottedGroups(s: string)
    requires IsDotted(s)
    ensures DigitGroups(Split(s, '.'))
    ensures PadNumbers(s) == PadJoin(Segments(s))
  {
    JoinSplit(s, '.');
    PadGroups(Split(s, '.'));
  }

  /** For dotted versions whose segments are all below 10000, comparing the padded strings
      is comparing the versions segment by segment, numerically. */
  lemma PaddedOrderIsNumeric(v: string, w: string)
    requires IsDotted(v) && IsDotted(w)
    requires SmallSegments(Segments(v)) && SmallSegments(Segments(w))
    ensures LexLess(PadNumbers(v), PadNumbers(w)) <==> NumLess(Segments(v), Segments(w))
  {
    DottedGroups(v);
    DottedGroups(w);
    PadJoinOrder(Segments(v), Segments(w));
  }

  /** The version test of the remote agent (corrected: the whole output must be a version). */
  predicate Acceptable(remote: string, own: string)
  {
    IsDotted(remote) && !LexLess(PadNumbers(remote), PadNumbers(own))
  }

  /** The installed agent counts as good enough exactly when its output is a dotted version
      that is numerically at least the orchestrator's own version. */
  lemma AcceptableIsNumeric(remote: string, own: string)
    requires IsDotted(remote) && IsDotted(own)
    requires SmallSegments(Segments(remote)) && SmallSegments(Segments(own))
    ensures Acceptable(remote, own) <==> !NumLess(Segments(remote), Segments(own))
  {
    PaddedOrderIsNumeric(remote, own);
  }

  // ---------------------------------------------------------------------------
  // The version test as written: Ruby's ^ and $ anchor at line boundaries
  // ---------------------------------------------------------------------------

  /** `=~ /^...$/` as Ruby reads it: some line of the output is a dotted version. */
  predicate MatchesAsWritten(s: string)
  {
    var lines := Split(s, '\n');
    exists i :: 0 <= i < |lines| && IsDotted(lines[i])
  }

  predicate AcceptableAsWritten(remote: string, own: string)
  {
    MatchesAsWritten(remote) && !LexLess(PadNumbers(remote), PadNumbers(own))
  }

  lemma {:induction false} JoinChars(gs: seq<string>, sep: char, k: nat)
    requires |gs| >= 1 && k < |Join(gs, sep)|
    ensures Join(gs, sep)[k] == sep || exists i, j :: 0 <= i < |gs| && 0 <= j < |gs[i]| && gs[i][j] == Join(gs, sep)[k]
  {
    if |gs| > 1 {
      var j := Join(gs[1..], sep);
      assert Join(gs, sep) == gs[0] + [sep] + j;
      if k < |gs[0]| {
        assert gs[0][k] == Join(gs, sep)[k];
      } else if k > |gs[0]| {
        assert Join(gs, sep)[k] == j[k - |gs[0]| - 1];
        JoinChars(gs[1..], sep, k - |gs[0]| - 1);
        if j[k - |gs[0]| - 1] != sep {
          var i, jj :| 0 <= i < |gs[1..]| && 0 <= jj < |gs[1..][i]| && gs[1..][i][jj] == j[k - |gs[0]| - 1];
          assert gs[i + 1][jj] == Join(gs, sep)[k];
        }
      }
    } else {
      assert gs[0][k] == Join(gs, sep)[k];
    }
  }

  /** A dotted version holds only digits and dots (in particular, no newline). */
  lemma DottedChars(s: string)
    requires IsDotted(s)
    ensures forall k :: 0 <= k < |s| ==> IsDigit(s[k]) || s[k] == '.'
  {
    JoinSplit(s, '.');
    var gs := Split(s, '.');
    forall k | 0 <= k < |s| ensures IsDigit(s[k]) || s[k] == '.' {
      JoinChars(gs, '.', k);
    }
  }

  /** A string holding a character other than a digit or a dot is not a dotted version. */
  lemma NotDotted(s: string, k: nat)
    requires k < |s| && !IsDigit(s[k]) && s[k] != '.'
    ensures !IsDotted(s)
  {
    if IsDotted(s) {
      DottedChars(s);
    }
  }

  lemma {:induction false} SplitNoSep(s: string, sep: char)
    requires sep !in s
    ensures Split(s, sep) == [s]
    decreases |s|
  {
    if s != [] {
      assert s[0] != sep && sep !in s[1..];
      SplitNoSep(s[1..], sep);
      assert [s[0]] + s[1..] == s;
    }
  }

  lemma {:induction false} SplitAround(a: string, b: string, sep: char)
    requires sep !in a
    ensures Split(a + [sep] + b, sep) == [a] + Split(b, sep)
    decreases |a|
  {
    var s := a + [sep] + b;
    if a == [] {
      assert s[0] == sep && s[1..] == b;
    } else {
      assert s[0] == a[0] && s[1..] == a[1..] + [sep] + b;
      assert sep !in a[1..];
      SplitAround(a[1..], b, sep);
      assert [a[0]] + a[1..] == a;
    }
  }

  /** A digit, a dot and a digit form a dotted version of two one-digit segments. */
  lemma DigitDotDigit(c: char, d: char)
    requires IsDigit(c) && IsDigit(d)
    ensures IsDotted([c, '.', d]) && Segments([c, '.', d]) == [DigitValue(c), DigitValue(d)]
  {
    assert [c, '.', d] == [c] + ['.'] + [d];
    SplitAround([c], [d], '.');
    SplitNoSep([d], '.');
    assert Split([c, '.', d], '.') == [[c], [d]];
    assert Value([c]) == DigitValue(c) && Value([d]) == DigitValue(d);
    assert Values([[d]]) == [DigitValue(d)];
  }

  lemma SmallVersions()
    ensures IsDotted("0.1") && Segments("0.1") == [0, 1]
    ensures IsDotted("0.2") && Segments("0.2") == [0, 2]
  {
    DigitDotDigit('0', '1');
    DigitDotDigit('0', '2');
  }

  lemma TwoLines()
    ensures Split("x\n0.1", '\n') == ["x", "0.1"]
  {
    assert "x\n0.1" == "x" + ['\n'] + "0.1";
    SplitAround("x", "0.1", '\n');
    SplitNoSep("0.1", '\n');
  }

  lemma StrayLineMatches()
    ensures MatchesAsWritten("x\n0.1")
  {
    SmallVersions();
    TwoLines();
    assert IsDotted(Split("x\n0.1", '\n')[1]);
  }

  /** A padded string that starts with a letter sorts after one that starts with a digit. */
  lemma LetterSortsAfterDigits(remote: string, own: string)
    requires remote != [] && remote[0] == 'x'
    requires own != [] && IsDigit(own[0])
    ensures !LexLess(PadNumbers(remote), PadNumbers(own))
  {
    PadFirst(remote);
    var k := RunLength(own);
    RunDigits(own);
    assert PadNumbers(own) == Pad4(Value(own[..k])) + PadNumbers(own[k..]);
    assert IsDigit(PadNumbers(own)[0]);
  }

  /** As written, a remote output with a stray first line and an older version on its second
      line passes the test; the corrected test rejects it. */
  lemma LineAnchorsAcceptOlderAgent()
    ensures AcceptableAsWritten("x\n0.1", "0.2")
    ensures !Acceptable("x\n0.1", "0.2")
    ensures IsDotted("0.1") && IsDotted("0.2") && NumLess(Segments("0.1"), Segments("0.2"))
  {
    SmallVersions();
    StrayLineMatches();
    LetterSortsAfterDigits("x\n0.1", "0.2");
    NotDotted("x\n0.1", 0);
  }
}
