/** Shared vocabulary of the model: optional and failing results, the Kotlin
    string predicates the app relies on, decimal digit strings, real-valued
    sums and means, and the dynamically typed values a Firebase snapshot
    hands back. */
module Base {

  datatype Option<+T> = None | Some(value: T) {
    /** Kotlin's elvis operator `x ?: d`. */
    function GetOr(d: T): T {
      match this
      case Some(v) => v
      case None => d
    }
  }

  datatype Result<+T, +E> = Ok(value: T) | Err(error: E) {
    predicate IsFailure() {
      Err?
    }

    function PropagateFailure<U>(): Result<U, E>
      requires Err?
    {
      Err(error)
    }

    function Extract(): T
      requires Ok?
    {
      value
    }
  }

  /** A value read from the realtime database, tagged with its JVM type, so that
      `is Number`, `as? Int`, `as? String` and `as? Map` can be modelled as tests
      on the tag. */
  datatype DbValue =
    | IntV(i: int)        // java.lang.Integer
    | LongV(l: int)       // java.lang.Long
    | DoubleV(d: real)    // java.lang.Double / Float
    | StrV(s: string)
    | BoolV(b: bool)
    | MapV(m: map<string, DbValue>)
    | ListV(items: seq<DbValue>)

  /** `is Number` on a database value. */
  predicate IsNumber(v: DbValue) {
    v.IntV? || v.LongV? || v.DoubleV?
  }

  /** A value a Kotlin `Int` can hold, as `getValue(Int::class.java)` returns. */
  predicate IsInt32(x: int) {
    -0x8000_0000 <= x < 0x8000_0000
  }

  /** A field read with `getValue(Int::class.java)`: missing, or a Kotlin `Int`. */
  predicate OptionalInt32(v: Option<int>) {
    v.Some? ==> IsInt32(v.value)
  }

  // ---------------------------------------------------------------------------
  // Characters and strings

  /** Kotlin's `Char.isWhitespace()`: Java whitespace or a Unicode space separator. */
  predicate IsWhitespace(c: char) {
    || '\t' <= c <= '\r'
    || '\U{1C}' <= c <= ' '
    || c == '\U{A0}' || c == '\U{1680}'
    || '\U{2000}' <= c <= '\U{200A}'
    || c == '\U{2028}' || c == '\U{2029}' || c == '\U{202F}' || c == '\U{205F}' || c == '\U{3000}'
  }

  /** Kotlin's `CharSequence.isBlank()`: empty or whitespace only. */
  predicate IsBlank(s: string) {
    forall i :: 0 <= i < |s| ==> IsWhitespace(s[i])
  }

  function TrimStart(s: string): (r: string)
    ensures |r| <= |s| && r == s[|s| - |r|..]
    ensures r == [] || !IsWhitespace(r[0])
    ensures forall i :: 0 <= i < |s| - |r| ==> IsWhitespace(s[i])
  {
    if s == [] || !IsWhitespace(s[0]) then s else TrimStart(s[1..])
  }

  function TrimEnd(s: string): (r: string)
    ensures |r| <= |s| && r == s[..|r|]
    ensures r == [] || !IsWhitespace(r[|r| - 1])
    ensures forall i :: |r| <= i < |s| ==> IsWhitespace(s[i])
  {
    if s == [] || !IsWhitespace(s[|s| - 1]) then s else TrimEnd(s[..|s| - 1])
  }

  lemma BlankConcat(x: string, y: string)
    requires IsBlank(x) && IsBlank(y)
    ensures IsBlank(x + y)
  {
    forall j | 0 <= j < |x + y| ensures IsWhitespace((x + y)[j]) {
      if j >= |x| { assert (x + y)[j] == y[j - |x|]; }
    }
  }

  /** Nothing survives trimming only when everything was whitespace. */
  lemma TrimmedAway(s: string)
    requires TrimEnd(TrimStart(s)) == []
    ensures IsBlank(s)
  {
    var a := TrimStart(s);
    var k := |s| - |a|;
    assert IsBlank(a);
    BlankConcat(s[..k], a);
    assert s[..k] + a == s;
  }

  /** `r` is the slice of `s` from `i`, and everything before and after it is whitespace. */
  predicate TrimmedAt(s: string, r: string, i: nat)
    requires i + |r| <= |s|
  {
    r == s[i..i + |r|] && IsBlank(s[..i]) && IsBlank(s[i + |r|..])
  }

  /** `TrimStart` removes a blank prefix of `s` and keeps the rest. */
  lemma TrimStartAt(s: string)
    ensures TrimStart(s) == s[|s| - |TrimStart(s)|..]
    ensures IsBlank(s[..|s| - |TrimStart(s)|])
  {
    var k := |s| - |TrimStart(s)|;
    var head := s[..k];
    forall j | 0 <= j < |head| ensures IsWhitespace(head[j]) {
      assert head[j] == s[j];
    }
  }

  /** `TrimEnd` removes a blank suffix of `a` and keeps the rest. */
  lemma TrimEndAt(a: string)
    ensures TrimEnd(a) == a[..|TrimEnd(a)|]
    ensures IsBlank(a[|TrimEnd(a)|..])
  {
    var tail := a[|TrimEnd(a)|..];
    forall j | 0 <= j < |tail| ensures IsWhitespace(tail[j]) {
      assert tail[j] == a[|TrimEnd(a)| + j];
    }
  }

  /** A blank prefix cut off, then a blank suffix cut off, leave a slice of the
      whole text with blank text on either side. */
  lemma BlankEndsSlice(s: string, a: string, b: string)
    requires |a| <= |s| && a == s[|s| - |a|..] && IsBlank(s[..|s| - |a|])
    requires |b| <= |a| && b == a[..|b|] && IsBlank(a[|b|..])
    ensures |s| - |a| + |b| <= |s| && TrimmedAt(s, b, |s| - |a|)
  {
    var k := |s| - |a|;
    assert s[k + |b|..] == a[|b|..];
  }

  /** `TrimEnd(TrimStart(s))` is cut out of `s` at the length of the leading whitespace. */
  lemma TrimStartEndAt(s: string)
    ensures |s| - |TrimStart(s)| + |TrimEnd(TrimStart(s))| <= |s|
    ensures TrimmedAt(s, TrimEnd(TrimStart(s)), |s| - |TrimStart(s)|)
  {
    TrimStartAt(s);
    TrimEndAt(TrimStart(s));
    BlankEndsSlice(s, TrimStart(s), TrimEnd(TrimStart(s)));
  }

  /** Both the first and the last character of `r` are not whitespace. */
  predicate BoundedByText(r: string)
    requires r != []
  {
    !IsWhitespace(r[0]) && !IsWhitespace(r[|r| - 1])
  }

  /** A non-empty trim result has non-whitespace ends, so the text was not blank. */
  lemma TrimEnds(s: string)
    ensures var b := TrimEnd(TrimStart(s));
            b != [] ==> BoundedByText(b) && !IsBlank(s)
  {
    TrimStartAt(s);
    TrimEndAt(TrimStart(s));
    NonBlankSlice(s, TrimStart(s), TrimEnd(TrimStart(s)));
  }

  /** A slice that starts at a non-whitespace character shows the text is not blank. */
  lemma NonBlankSlice(s: string, a: string, b: string)
    requires |a| <= |s| && a == s[|s| - |a|..] && (a == [] || !IsWhitespace(a[0]))
    requires |b| <= |a| && b == a[..|b|]
    ensures b != [] ==> !IsWhitespace(b[0]) && !IsBlank(s)
  {
    if b != [] {
      assert b[0] == a[0] == s[|s| - |a|];
    }
  }

  /** The facts `Trim` promises, about `TrimEnd(TrimStart(s))`. */
  lemma TrimFacts(s: string)
    ensures var b := TrimEnd(TrimStart(s));
            && (exists i :: 0 <= i <= |s| - |b| && TrimmedAt(s, b, i))
            && (b == [] || BoundedByText(b))
            && (b == [] <==> IsBlank(s))
  {
    var b := TrimEnd(TrimStart(s));
    TrimStartEndAt(s);
    TrimEnds(s);
    if b == [] {
      TrimmedAway(s);
    }
  }

  /** Kotlin's `String.trim()`: leading and trailing whitespace removed. */
  function Trim(s: string): (r: string)
    ensures exists i :: 0 <= i <= |s| - |r| && TrimmedAt(s, r, i)
    ensures r == [] || BoundedByText(r)
    ensures r == [] <==> IsBlank(s)
  {
    var b := TrimEnd(TrimStart(s));
    TrimFacts(s);
    b
  }

  /** `Char.isDigit()` restricted to the ASCII digits. */
  predicate IsDigit(c: char) {
    '0' <= c <= '9'
  }

  /** `all { it.isDigit() }`: true of the empty string too. */
  predicate AllDigits(s: string) {
    forall i :: 0 <= i < |s| ==> IsDigit(s[i])
  }

  function DigitValue(c: char): nat
    requires IsDigit(c)
  {
    c as int - '0' as int
  }

  function DigitChar(d: nat): (c: char)
    requires d < 10
    ensures IsDigit(c) && DigitValue(c) == d
  {
    ('0' as int + d) as char
  }

  function Pow10(n: nat): (r: nat)
    ensures r >= 1
  {
    if n == 0 then 1 else 10 * Pow10(n - 1)
  }

  /** The number a string of decimal digits denotes (leading zeros allowed). */
  function DigitsValue(s: string): nat
    requires AllDigits(s)
  {
    if s == [] then 0 else 10 * DigitsValue(s[..|s| - 1]) + DigitValue(s[|s| - 1])
  }

  /** Decimal rendering of a natural number, without leading zeros. */
  function Decimal(n: nat): (r: string)
    ensures AllDigits(r) && r != []
    ensures |r| > 1 ==> r[0] != '0'
  {
    if n < 10 then [DigitChar(n)] else Decimal(n / 10) + [DigitChar(n % 10)]
  }

  lemma {:induction false} DecimalRoundTrip(n: nat)
    ensures DigitsValue(Decimal(n)) == n
  {
    if n >= 10 {
      DecimalRoundTrip(n / 10);
      var r := Decimal(n);
      assert r[..|r| - 1] == Decimal(n / 10);
    }
  }

  /** A decimal rendering has more than k digits exactly when the number reaches 10^k. */
  lemma {:induction false} DecimalLength(n: nat, k: nat)
    requires k > 0
    ensures |Decimal(n)| > k <==> n >= Pow10(k)
  {
    if n >= 10 && k > 1 {
      DecimalLength(n / 10, k - 1);
    } else if n >= 10 {
      assert |Decimal(n / 10)| >= 1;
    } else {
      Pow10AtLeastTen(k);
    }
  }

  lemma {:induction false} Pow10AtLeastTen(k: nat)
    requires k > 0
    ensures Pow10(k) >= 10
  {
    if k > 1 { Pow10AtLeastTen(k - 1); }
  }

  // ---------------------------------------------------------------------------
  // Lexicographic comparison

  /** `a.compareTo(b) <= 0` on Kotlin strings: character by character, a proper
      prefix first. */
  predicate LexLe(a: string, b: string) {
    if a == [] then true
    else if b == [] then false
    else if a[0] != b[0] then a[0] < b[0]
    else LexLe(a[1..], b[1..])
  }

  lemma {:induction false} LexLeTransitive(a: string, b: string, c: string)
    requires LexLe(a, b) && LexLe(b, c)
    ensures LexLe(a, c)
  {
    if a != [] && b != [] && c != [] && a[0] == b[0] && b[0] == c[0] {
      LexLeTransitive(a[1..], b[1..], c[1..]);
    }
  }

  lemma {:induction false} LexLeTotal(a: string, b: string)
    ensures LexLe(a, b) || LexLe(b, a)
  {
    if a != [] && b != [] && a[0] == b[0] {
      LexLeTotal(a[1..], b[1..]);
    }
  }

  lemma {:induction false} LexLeAntisymmetric(a: string, b: string)
    requires LexLe(a, b) && LexLe(b, a)
    ensures a == b
  {
    if a != [] && b != [] {
      LexLeAntisymmetric(a[1..], b[1..]);
      assert a == [a[0]] + a[1..] && b == [b[0]] + b[1..];
    }
  }

  // ---------------------------------------------------------------------------
  // Sums and means over reals (Kotlin Float / Double arithmetic taken as exact)

  function Sum(xs: seq<real>): real {
    if xs == [] then 0.0 else Sum(xs[..|xs| - 1]) + xs[|xs| - 1]
  }

  lemma {:induction false} SumAppend(a: seq<real>, b: seq<real>)
    ensures Sum(a + b) == Sum(a) + Sum(b)
  {
    if b != [] {
      assert (a + b)[..|a + b| - 1] == a + b[..|b| - 1];
      SumAppend(a, b[..|b| - 1]);
    } else {
      assert a + b == a;
    }
  }

  /** `if (xs.isNotEmpty()) xs.average() else 0`. */
  function Mean(xs: seq<real>): (r: real)
    ensures xs == [] ==> r == 0.0
    ensures xs != [] ==> r * (|xs| as real) == Sum(xs)
  {
    if xs == [] then 0.0 else Sum(xs) / (|xs| as real)
  }

  lemma {:induction false} SumBounds(xs: seq<real>, lo: real, hi: real)
    requires forall i :: 0 <= i < |xs| ==> lo <= xs[i] <= hi
    ensures lo * (|xs| as real) <= Sum(xs) <= hi * (|xs| as real)
  {
    if xs != [] {
      SumBounds(xs[..|xs| - 1], lo, hi);
    }
  }

  /** A non-empty mean lies between the smallest and the largest value. */
  lemma MeanBetweenBounds(xs: seq<real>, lo: real, hi: real)
    requires xs != []
    requires forall i :: 0 <= i < |xs| ==> lo <= xs[i] <= hi
    ensures lo <= Mean(xs) <= hi
  {
    SumBounds(xs, lo, hi);
    var n, m := |xs| as real, Mean(xs);
    assert (m - lo) * n == Sum(xs) - lo * n >= 0.0;
    assert (hi - m) * n == hi * n - Sum(xs) >= 0.0;
  }

  // ---------------------------------------------------------------------------
  // JVM integer division (truncating toward zero)

  /** Java's `a / b` on integers, for b > 0. */
  function TDiv(a: int, b: int): (q: int)
    requires b > 0
    ensures a >= 0 ==> 0 <= a - q * b < b
    ensures a < 0 ==> -b < a - q * b <= 0
  {
    if a >= 0 then a / b else -((-a) / b)
  }

  /** Java's `a % b` on integers and doubles, for b > 0: the sign of a. */
  function TRem(a: int, b: int): (r: int)
    requires b > 0
    ensures a == TDiv(a, b) * b + r
    ensures a >= 0 ==> 0 <= r < b
    ensures a < 0 ==> -b < r <= 0
  {
    if a >= 0 then a % b else -((-a) % b)
  }

  /** `s.contains(t)` on strings. */
  predicate Contains(s: string, t: string) {
    exists i {:trigger s[i..]} :: 0 <= i <= |s| - |t| && s[i..][..|t|] == t
  }
}
