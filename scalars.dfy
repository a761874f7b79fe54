/** Loose JSON scalar coercion: `convertibleBool` (convertibleBool.go) and
    `convertibleUint` (uint.go), with the parts of Go's `strings` and `strconv`
    packages they rely on (`strings.Trim`, `strings.Replace`, `strconv.Atoi`)
    and the `%d` formatting used elsewhere in the client.

    Both decoders receive the raw JSON text of one value; the receiver is
    written only on success, so each decoder takes the receiver's current value
    and returns its value afterwards together with Go's `error` (None = nil). */
module Scalars {
  import opened Wrappers

  const Quote: char := '"'

  /** 2^64: Go's `uint64` holds the values below it. */
  const Two64: int := 0x1_0000_0000_0000_0000
  /** Range of Go's 64-bit `int` (the client targets 64-bit platforms). */
  const MinInt64: int := -0x8000_0000_0000_0000
  const MaxInt64: int := 0x7fff_ffff_ffff_ffff

  /** What an `UnmarshalJSON` leaves behind: the receiver's value and the error. */
  datatype Unmarshalled<T, E> = Unmarshalled(value: T, err: Option<E>)

  predicate AllQuotes(s: string) {
    forall i :: 0 <= i < |s| ==> s[i] == Quote
  }

  /** `n` quote characters. */
  function Quotes(n: nat): (r: string)
    ensures |r| == n && AllQuotes(r)
  {
    if n == 0 then [] else [Quote] + Quotes(n - 1)
  }

  // ---------------------------------------------------------------------------
  // strings.Trim(s, `"`)
  // ---------------------------------------------------------------------------

  /** The index of the first character at or after `k` that is not a quote
      (`|s|` when there is none). */
  function SkipQuotesForward(s: string, k: nat): (i: nat)
    requires k <= |s|
    ensures k <= i <= |s|
    ensures forall n :: k <= n < i ==> s[n] == Quote
    ensures i == |s| || s[i] != Quote
    decreases |s| - k
  {
    if k < |s| && s[k] == Quote then SkipQuotesForward(s, k + 1) else k
  }

  /** The index just after the last character before `k` that is not a
      quote (0 when there is none). */
  function SkipQuotesBackward(s: string, k: nat): (j: nat)
    requires k <= |s|
    ensures j <= k
    ensures forall n :: j <= n < k ==> s[n] == Quote
    ensures j == 0 || s[j - 1] != Quote
  {
    if k > 0 && s[k - 1] == Quote then SkipQuotesBackward(s, k - 1) else k
  }

  /** `r` is what is left of `s` once all leading and trailing quotes are gone:
      a slice of `s`, with only quotes before and after it, that neither
      starts nor ends with a quote. Inner quotes are kept. */
  ghost predicate IsQuoteTrim(s: string, r: string) {
    exists i, j :: 0 <= i <= j <= |s| && r == s[i..j] &&
      (forall n :: 0 <= n < i ==> s[n] == Quote) &&
      (forall n :: j <= n < |s| ==> s[n] == Quote) &&
      (r == [] || (r[0] != Quote && r[|r| - 1] != Quote))
  }

  /** `strings.Trim(s, "\"")` (convertibleBool.go:13). */
  function Trim(s: string): (r: string)
    ensures IsQuoteTrim(s, r)
  {
    var i := SkipQuotesForward(s, 0);
    var j := SkipQuotesBackward(s, |s|);
    var end := if j < i then i else j;
    assert forall n :: end <= n < |s| ==> s[n] == Quote;
    s[i..end]
  }

  /** The forward skip stops at the first non-quote and nowhere else. */
  lemma SkipForwardStopsAt(s: string, k: nat, i: nat)
    requires k <= i <= |s|
    requires forall n :: k <= n < i ==> s[n] == Quote
    requires i == |s| || s[i] != Quote
    ensures SkipQuotesForward(s, k) == i
  {
  }

  /** The backward skip stops after the last non-quote and nowhere else. */
  lemma SkipBackwardStopsAt(s: string, k: nat, j: nat)
    requires j <= k <= |s|
    requires forall n :: j <= n < k ==> s[n] == Quote
    requires j == 0 || s[j - 1] != Quote
    ensures SkipQuotesBackward(s, k) == j
  {
  }

  /** Any number of quotes on either side of a text that neither starts nor
      ends with a quote is removed, and only those: `"1"`, `1` and `""1"` all
      trim to `1`, and inner quotes survive. */
  lemma TrimSurroundingQuotes(t: string, a: nat, b: nat)
    requires t == [] || (t[0] != Quote && t[|t| - 1] != Quote)
    ensures Trim(Quotes(a) + t + Quotes(b)) == t
  {
    var qa, qb := Quotes(a), Quotes(b);
    var s := qa + t + qb;
    var e := a + |t|;
    assert forall n :: 0 <= n < a ==> s[n] == Quote by {
      forall n | 0 <= n < a ensures s[n] == Quote { assert s[n] == qa[n]; }
    }
    assert forall n :: e <= n < |s| ==> s[n] == Quote by {
      forall n | e <= n < |s| ensures s[n] == Quote { assert s[n] == qb[n - e]; }
    }
    if t == [] {
      SkipForwardStopsAt(s, 0, |s|);
      SkipBackwardStopsAt(s, |s|, 0);
    } else {
      assert s[a] == t[0] && s[e - 1] == t[|t| - 1];
      SkipForwardStopsAt(s, 0, a);
      SkipBackwardStopsAt(s, |s|, e);
      assert s[a..e] == t;
    }
  }

  /** Trimming is idempotent. */
  lemma TrimIdempotent(s: string)
    ensures Trim(Trim(s)) == Trim(s)
  {
    var r := Trim(s);
    if r == [] {
      SkipForwardStopsAt(r, 0, 0);
    } else {
      SkipForwardStopsAt(r, 0, 0);
      SkipBackwardStopsAt(r, |r|, |r|);
      assert r[0..|r|] == r;
    }
  }

  // ---------------------------------------------------------------------------
  // convertibleBool.UnmarshalJSON
  // ---------------------------------------------------------------------------

  const BoolErrorPrefix: string := "Boolean unmarshal error: invalid input "

  /** The four literals that decode, whether quoted or bare. */
  predicate IsBoolLiteral(t: string) {
    t == "1" || t == "true" || t == "0" || t == "false"
  }

  /** `convertibleBool.UnmarshalJSON` (convertibleBool.go:11-22). */
  function UnmarshalBool(receiver: bool, data: string): (r: Unmarshalled<bool, string>)
    ensures r.err.None? <==> IsBoolLiteral(Trim(data))
    ensures r.err.None? ==> (r.value <==> Trim(data) == "1" || Trim(data) == "true")
    ensures r.err.Some? ==> r.value == receiver && r.err.value == BoolErrorPrefix + Trim(data)
  {
    var text := Trim(data);
    if text == "1" || text == "true" then Unmarshalled(true, None)
    else if text == "0" || text == "false" then Unmarshalled(false, None)
    else Unmarshalled(receiver, Some(BoolErrorPrefix + text))
  }

  /** A literal decodes to the same value with any surrounding quotes, and the
      previous receiver value does not matter. */
  lemma BoolQuotedOrBare(receiver: bool, lit: string, a: nat, b: nat)
    requires IsBoolLiteral(lit)
    ensures UnmarshalBool(receiver, Quotes(a) + lit + Quotes(b)) == Unmarshalled(lit == "1" || lit == "true", None)
  {
    TrimSurroundingQuotes(lit, a, b);
  }

  /** Any other text, bare or inside any quotes, is refused with its own
      name in the message and the receiver keeps its value; bool_test.go:19
      is the case of `//` inside one pair of quotes. */
  lemma BoolRejectsOthers(receiver: bool, t: string, a: nat, b: nat)
    requires t == [] || (t[0] != Quote && t[|t| - 1] != Quote)
    requires !IsBoolLiteral(t)
    ensures UnmarshalBool(receiver, Quotes(a) + t + Quotes(b)) == Unmarshalled(receiver, Some(BoolErrorPrefix + t))
  {
    TrimSurroundingQuotes(t, a, b);
  }

  // ---------------------------------------------------------------------------
  // Decimal digits, %d formatting and strconv.Atoi
  // ---------------------------------------------------------------------------

  predicate IsDigit(c: char) {
    '0' <= c <= '9'
  }

  predicate AllDigits(s: string) {
    forall i :: 0 <= i < |s| ==> IsDigit(s[i])
  }

  /** The value of a run of decimal digits, read left to right. */
  function DigitsValue(s: string): nat
    requires AllDigits(s)
  {
    if s == [] then 0 else DigitsValue(s[..|s| - 1]) * 10 + (s[|s| - 1] as int - '0' as int)
  }

  function DigitChar(d: nat): (c: char)
    requires d < 10
    ensures IsDigit(c) && c as int - '0' as int == d
  {
    ('0' as int + d) as char
  }

  /** `fmt.Sprintf("%d", n)` for a natural number: shortest decimal digits. */
  function FormatNat(n: nat): (r: string)
    ensures |r| > 0 && AllDigits(r)
    ensures DigitsValue(r) == n
    ensures r[0] == '0' ==> n == 0
  {
    if n < 10 then [DigitChar(n)]
    else
      var p := FormatNat(n / 10);
      var r := p + [DigitChar(n % 10)];
      assert r[..|r| - 1] == p;
      r
  }

  /** `fmt.Sprintf("%d", i)` for any integer. */
  function FormatInt(i: int): (r: string)
    ensures |r| > 0
    ensures i >= 0 <==> r[0] != '-'
  {
    if i < 0 then "-" + FormatNat(-i) else FormatNat(i)
  }

  /** The error `strconv.Atoi` returns; `num` is the input it was given.
      Whether Go reports it as a syntax error or as a range error is not
      distinguished. */
  datatype NumError = NumError(num: string)

  /** The shape `strconv.Atoi` accepts: a sign that is empty, `+` or `-`,
      followed by one or more decimal digits. */
  predicate IntText(sign: string, digits: string) {
    (sign == "" || sign == "+" || sign == "-") && digits != [] && AllDigits(digits)
  }

  /** The integer that `sign` and `digits` spell. */
  function IntTextValue(sign: string, digits: string): int
    requires AllDigits(digits)
  {
    if sign == "-" then -(DigitsValue(digits) as int) else DigitsValue(digits)
  }

  /** `strconv.Atoi` on a 64-bit platform: an optional `+` or `-`, then one or
      more decimal digits, whose value must fit Go's 64-bit `int`. */
  function Atoi(s: string): (r: Result<int, NumError>)
    ensures r.Ok? ==> MinInt64 <= r.value <= MaxInt64
    ensures r.Ok? ==> exists sign, digits :: IntText(sign, digits) && s == sign + digits && r.value == IntTextValue(sign, digits)
    ensures r.Err? ==> r.error == NumError(s)
  {
    var signed := |s| > 0 && (s[0] == '-' || s[0] == '+');
    var digits := if signed then s[1..] else s;
    if |digits| == 0 || !AllDigits(digits) then Err(NumError(s))
    else
      var v: int := if signed && s[0] == '-' then -(DigitsValue(digits) as int) else DigitsValue(digits);
      if v < MinInt64 || v > MaxInt64 then Err(NumError(s))
      else
        var sign := if signed then s[..1] else "";
        assert s == sign + digits && IntText(sign, digits) && v == IntTextValue(sign, digits);
        Ok(v)
  }

  /** The converse of `Atoi`'s contract: every text of the accepted shape
      parses, to its value when that fits Go's `int` and to an error otherwise. */
  lemma AtoiReadsIntText(sign: string, digits: string)
    requires IntText(sign, digits)
    ensures var v := IntTextValue(sign, digits);
      Atoi(sign + digits) == if MinInt64 <= v <= MaxInt64 then Ok(v) else Err(NumError(sign + digits))
  {
    var s := sign + digits;
    if sign == "" {
      assert s == digits;
      assert IsDigit(s[0]);
    } else {
      assert s[1..] == digits;
    }
  }

  /** Formatting with `%d` and parsing with `Atoi` are inverse on Go's `int`. */
  lemma AtoiFormatInt(i: int)
    requires MinInt64 <= i <= MaxInt64
    ensures Atoi(FormatInt(i)) == Ok(i)
  {
    var s := FormatInt(i);
    if i < 0 {
      assert s[1..] == FormatNat(-i);
    }
  }

  /** A string holding a quote is never a number. */
  lemma AtoiRejectsQuote(s: string, k: nat)
    requires k < |s| && s[k] == Quote
    ensures Atoi(s).Err?
  {
    if |s| > 0 && (s[0] == '-' || s[0] == '+') {
      assert s[1..][k - 1] == Quote;
    }
  }

  // ---------------------------------------------------------------------------
  // convertibleUint.UnmarshalJSON
  // ---------------------------------------------------------------------------

  function QuoteCount(s: string): nat {
    if s == [] then 0 else (if s[0] == Quote then 1 else 0) + QuoteCount(s[1..])
  }

  /** `s` without any quote character. */
  function WithoutQuotes(s: string): string {
    if s == [] then [] else (if s[0] == Quote then [] else [s[0]]) + WithoutQuotes(s[1..])
  }

  /** `strings.Replace(s, "\"", "", n)`: deletes the first `n` quotes (all of
      them when there are fewer), wherever they stand, and nothing else. */
  function RemoveQuotes(s: string, n: nat): (r: string)
    ensures QuoteCount(r) == if QuoteCount(s) <= n then 0 else QuoteCount(s) - n
    ensures WithoutQuotes(r) == WithoutQuotes(s)
    ensures |r| == |s| - (QuoteCount(s) - QuoteCount(r))
  {
    if s == [] then []
    else if s[0] == Quote && n > 0 then RemoveQuotes(s[1..], n - 1)
    else
      var r := [s[0]] + RemoveQuotes(s[1..], n);
      assert r[1..] == RemoveQuotes(s[1..], n);
      r
  }

  lemma ConcatAssoc(x: string, y: string, z: string)
    ensures x + (y + z) == (x + y) + z
  {
  }

  lemma RemoveQuotesNoLimit(s: string)
    ensures RemoveQuotes(s, 0) == s
  {
    if s != [] {
      RemoveQuotesNoLimit(s[1..]);
    }
  }

  /** `strings.Replace` deletes the FIRST `n` quotes: when `a` holds exactly
      `n` quotes, or fewer with none left in `b`, the result is `a` without
      its quotes followed by `b` untouched. Every text splits this way, so the
      result is determined for all inputs. */
  lemma {:induction false} RemoveQuotesFirst(a: string, b: string, n: nat)
    requires QuoteCount(a) == n || (QuoteCount(a) < n && QuoteCount(b) == 0)
    ensures RemoveQuotes(a + b, n) == WithoutQuotes(a) + b
  {
    if a == [] {
      assert a + b == b;
      if n == 0 {
        RemoveQuotesNoLimit(b);
      } else {
        RemoveQuotesZero(b, n);
      }
    } else {
      var s := a + b;
      assert s[0] == a[0] && s[1..] == a[1..] + b;
      if a[0] == Quote {
        assert QuoteCount(a) == 1 + QuoteCount(a[1..]);
        RemoveQuotesFirst(a[1..], b, n - 1);
        assert WithoutQuotes(a) == WithoutQuotes(a[1..]);
      } else {
        assert QuoteCount(a) == QuoteCount(a[1..]);
        RemoveQuotesFirst(a[1..], b, n);
        var w := WithoutQuotes(a[1..]);
        var rest := RemoveQuotes(a[1..] + b, n);
        assert RemoveQuotes(s, n) == [a[0]] + rest;
        assert WithoutQuotes(a) == [a[0]] + w;
        ConcatAssoc([a[0]], w, b);
      }
    }
  }

  /** Go's conversion of a 64-bit `int` to `uint64`: the same bits, so a
      negative value wraps around by 2^64. */
  function ToUint64(i: int): (u: nat)
    requires MinInt64 <= i <= MaxInt64
    ensures u < Two64
    ensures i >= 0 ==> u == i
    ensures i < 0 ==> u == i + Two64
  {
    if i >= 0 then i else i + Two64
  }

  /** `convertibleUint.UnmarshalJSON` (uint.go:10-20): the first two quotes are
      removed, the rest goes to `strconv.Atoi`, and the `int` is converted to
      `uint64`, so a negative value wraps modulo 2^64. */
  function UnmarshalUint(receiver: nat, data: string): (r: Unmarshalled<nat, NumError>)
    requires receiver < Two64
    ensures r.value < Two64
    ensures r.err.Some? ==> r.value == receiver && r.err.value == NumError(RemoveQuotes(data, 2))
  {
    match Atoi(RemoveQuotes(data, 2))
    case Err(e) => Unmarshalled(receiver, Some(e))
    case Ok(v) => Unmarshalled(ToUint64(v), None)
  }

  /** `Atoi` succeeds exactly on the texts of the accepted shape whose value
      fits Go's `int`. */
  lemma AtoiSucceedsIff(s: string)
    ensures Atoi(s).Ok? <==> (exists sign, digits :: IntText(sign, digits) && s == sign + digits &&
                                                     MinInt64 <= IntTextValue(sign, digits) <= MaxInt64)
  {
    if exists sign, digits :: IntText(sign, digits) && s == sign + digits &&
                              MinInt64 <= IntTextValue(sign, digits) <= MaxInt64 {
      var sign, digits :| IntText(sign, digits) && s == sign + digits &&
                          MinInt64 <= IntTextValue(sign, digits) <= MaxInt64;
      AtoiReadsIntText(sign, digits);
    }
  }

  /** Decoding succeeds exactly when what is left after removing two quotes is
      a signed or unsigned run of digits whose value fits Go's `int`; the
      value is then that number as a `uint64`. */
  lemma UintSucceedsIff(receiver: nat, data: string)
    requires receiver < Two64
    ensures var r := UnmarshalUint(receiver, data);
      r.err.None? <==> (exists sign, digits :: IntText(sign, digits) && RemoveQuotes(data, 2) == sign + digits &&
                                                MinInt64 <= IntTextValue(sign, digits) <= MaxInt64)
    ensures var r := UnmarshalUint(receiver, data);
      r.err.None? ==> (exists sign, digits :: IntText(sign, digits) && RemoveQuotes(data, 2) == sign + digits &&
                                               MinInt64 <= IntTextValue(sign, digits) <= MaxInt64 &&
                                               r.value == ToUint64(IntTextValue(sign, digits)))
  {
    var text := RemoveQuotes(data, 2);
    AtoiSucceedsIff(text);
    var a := Atoi(text);
    if a.Ok? {
      var sign, digits :| IntText(sign, digits) && text == sign + digits && a.value == IntTextValue(sign, digits);
      assert UnmarshalUint(receiver, data).value == ToUint64(IntTextValue(sign, digits));
    }
  }

  lemma QuoteCountPositive(s: string) returns (k: nat)
    requires QuoteCount(s) > 0
    ensures k < |s| && s[k] == Quote
  {
    if s[0] == Quote {
      k := 0;
    } else {
      var k' := QuoteCountPositive(s[1..]);
      k := k' + 1;
    }
  }

  lemma QuoteCountNoQuote(s: string)
    requires AllDigits(s)
    ensures QuoteCount(s) == 0
  {
    if s != [] {
      QuoteCountNoQuote(s[1..]);
    }
  }

  /** A third quote anywhere in the input survives the replacement, so the
      decode fails and the receiver keeps its value. */
  lemma UintThirdQuoteFails(receiver: nat, data: string)
    requires receiver < Two64
    requires QuoteCount(data) >= 3
    ensures UnmarshalUint(receiver, data).err.Some?
    ensures UnmarshalUint(receiver, data).value == receiver
  {
    var text := RemoveQuotes(data, 2);
    var k := QuoteCountPositive(text);
    AtoiRejectsQuote(text, k);
  }

  lemma RemoveTwoQuotesAround(t: string)
    requires QuoteCount(t) == 0
    ensures RemoveQuotes([Quote] + t + [Quote], 2) == t
  {
    var s := [Quote] + t + [Quote];
    assert s[1..] == t + [Quote];
    RemoveQuotesNone(t, 1);
  }

  /** With at least one quote to spare, a quote-free prefix is kept and the
      next quote goes. */
  lemma RemoveQuotesNone(t: string, n: nat)
    requires QuoteCount(t) == 0 && n > 0
    ensures RemoveQuotes(t + [Quote], n) == t
  {
    if t == [] {
      assert [Quote][1..] == [];
    } else {
      assert (t + [Quote])[1..] == t[1..] + [Quote];
      RemoveQuotesNone(t[1..], n);
    }
  }

  /** Once the quotes are gone the text is read by `Atoi` alone. */
  lemma UintReadsText(receiver: nat, data: string, v: int)
    requires receiver < Two64
    requires Atoi(RemoveQuotes(data, 2)) == Ok(v)
    ensures UnmarshalUint(receiver, data) == Unmarshalled(ToUint64(v), None)
  {
  }

  /** uint_test.go:16 in general: a bare number in range decodes to itself. */
  lemma {:induction false} UintBare(receiver: nat, n: nat)
    requires receiver < Two64 && n <= MaxInt64
    ensures UnmarshalUint(receiver, FormatNat(n)) == Unmarshalled(n, None)
  {
    var d := FormatNat(n);
    QuoteCountNoQuote(d);
    RemoveQuotesZero(d, 2);
    AtoiFormatInt(n);
    UintReadsText(receiver, d, n);
  }

  lemma AtoiFormatNat(n: nat)
    requires n <= MaxInt64
    ensures Atoi(FormatNat(n)) == Ok(n)
  {
    assert FormatInt(n) == FormatNat(n);
    AtoiFormatInt(n);
  }

  /** Digits in one pair of quotes decode as the bare digits do. */
  lemma UintQuotedDigits(receiver: nat, d: string, v: nat)
    requires receiver < Two64 && AllDigits(d) && Atoi(d) == Ok(v)
    ensures UnmarshalUint(receiver, [Quote] + d + [Quote]) == Unmarshalled(v, None)
  {
    QuoteCountNoQuote(d);
    RemoveTwoQuotesAround(d);
    UintReadsText(receiver, [Quote] + d + [Quote], v);
  }

  /** uint_test.go:15 in general: the same number in quotes decodes alike. */
  lemma {:induction false} UintQuoted(receiver: nat, n: nat)
    requires receiver < Two64 && n <= MaxInt64
    ensures UnmarshalUint(receiver, [Quote] + FormatNat(n) + [Quote]) == Unmarshalled(n, None)
  {
    AtoiFormatNat(n);
    UintQuotedDigits(receiver, FormatNat(n), n);
  }

  lemma RemoveQuotesZero(t: string, n: nat)
    requires QuoteCount(t) == 0
    ensures RemoveQuotes(t, n) == t
  {
    if t != [] {
      RemoveQuotesZero(t[1..], n);
    }
  }

  /** A negative number decodes to its two's-complement `uint64` value. */
  lemma UintNegativeWraps(receiver: nat, n: nat)
    requires receiver < Two64 && 0 < n <= -MinInt64
    ensures UnmarshalUint(receiver, "-" + FormatNat(n)) == Unmarshalled(Two64 - n, None)
  {
    var m: int := -(n as int);
    var d := "-" + FormatNat(n);
    assert d == FormatInt(m);
    QuoteCountNoQuote(FormatNat(n));
    assert QuoteCount(d) == QuoteCount(FormatNat(n)) by { assert d[1..] == FormatNat(n); }
    RemoveQuotesZero(d, 2);
    AtoiFormatInt(m);
    UintReadsText(receiver, d, m);
  }

  /** uint_test.go:17: `///` is refused and the receiver keeps its value. */
  lemma UintRejectsSlashes(receiver: nat)
    requires receiver < Two64
    ensures UnmarshalUint(receiver, "///") == Unmarshalled(receiver, Some(NumError("///")))
  {
    assert QuoteCount("///") == 0 by {
      assert "///"[1..] == "//" && "//"[1..] == "/" && "/"[1..] == "";
    }
    RemoveQuotesZero("///", 2);
    assert !IsDigit("///"[0]);
  }
}
