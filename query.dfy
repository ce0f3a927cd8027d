/** The query-string arithmetic the three list handlers share: strconv.Atoi,
    the `limit`/`page` defaults, and the window a `Find` with SetSkip/SetLimit
    returns. */
module Query {
  import opened Common

  const MaxInt64: int := 0x7FFF_FFFF_FFFF_FFFF
  const MinInt64: int := -0x8000_0000_0000_0000
  const TwoTo64: int := 0x1_0000_0000_0000_0000

  const DefaultLimit: int := 10
  const DefaultPage: int := 0

  function Min(a: int, b: int): int { if a <= b then a else b }

  // ---------------------------------------------------------------------------
  // strconv.Atoi

  predicate IsDigit(c: char) { '0' <= c <= '9' }

  predicate AllDigits(s: string) { forall i :: 0 <= i < |s| ==> IsDigit(s[i]) }

  function DigitValue(c: char): nat
    requires IsDigit(c)
  {
    c as int - '0' as int
  }

  function DigitChar(d: nat): char
    requires d < 10
  {
    ('0' as int + d) as char
  }

  /** Value of a run of decimal digits, most significant digit first. */
  function DecimalValue(ds: string): nat
    requires AllDigits(ds)
  {
    if ds == [] then 0 else 10 * DecimalValue(ds[..|ds| - 1]) + DigitValue(ds[|ds| - 1])
  }

  /** The shortest decimal spelling of n (what strconv.Itoa writes for n >= 0). */
  function DecimalString(n: nat): (s: string)
    ensures s != [] && AllDigits(s)
    ensures s[0] != '+' && s[0] != '-'
  {
    if n < 10 then [DigitChar(n)] else DecimalString(n / 10) + [DigitChar(n % 10)]
  }

  /** The text after an optional leading sign. */
  function Unsigned(s: string): string {
    if s != [] && (s[0] == '+' || s[0] == '-') then s[1..] else s
  }

  /** strconv.Atoi: an optional sign followed by at least one decimal digit,
      whose value fits in a Go int (64 bits); anything else is an error. */
  function Atoi(s: string): (r: Option<int>)
    ensures r.Some? ==> MinInt64 <= r.value <= MaxInt64
    ensures r.Some? ==> Unsigned(s) != [] && AllDigits(Unsigned(s))
    ensures r.Some? ==> (r.value < 0 ==> s[0] == '-') && (r.value > 0 ==> s[0] != '-')
  {
    if s == [] then None
    else
      var digits := Unsigned(s);
      if digits == [] || !AllDigits(digits) then None
      else
        var v: int := if s[0] == '-' then 0 - DecimalValue(digits) else DecimalValue(digits);
        if MinInt64 <= v <= MaxInt64 then Some(v) else None
  }

  lemma {:induction false} DecimalRoundTrip(n: nat)
    ensures DecimalValue(DecimalString(n)) == n
  {
    if n >= 10 {
      var s := DecimalString(n);
      assert s[..|s| - 1] == DecimalString(n / 10);
      DecimalRoundTrip(n / 10);
    }
  }

  /** Atoi reads back every int64 written in decimal, with or without a sign. */
  lemma AtoiDecimal(n: int)
    requires MinInt64 <= n <= MaxInt64
    ensures n >= 0 ==> Atoi(DecimalString(n)) == Some(n)
    ensures n >= 0 ==> Atoi("+" + DecimalString(n)) == Some(n)
    ensures n < 0 ==> Atoi("-" + DecimalString(-n)) == Some(n)
  {
    if n >= 0 {
      DecimalRoundTrip(n);
      assert ("+" + DecimalString(n))[1..] == DecimalString(n);
    } else {
      DecimalRoundTrip(-n);
      assert ("-" + DecimalString(-n))[1..] == DecimalString(-n);
    }
  }

  /** A run of digits without its leading zeros (a lone "0" is kept). */
  function StripZeros(ds: string): (t: string)
    requires ds != [] && AllDigits(ds)
    ensures t != [] && AllDigits(t) && |t| <= |ds|
    ensures |t| == 1 || t[0] != '0'
  {
    if |ds| > 1 && ds[0] == '0' then StripZeros(ds[1..]) else ds
  }

  lemma {:induction false} LeadingZeroValue(ds: string)
    requires AllDigits(ds)
    ensures AllDigits("0" + ds) && DecimalValue("0" + ds) == DecimalValue(ds)
  {
    if ds != [] {
      var z := "0" + ds;
      assert z[..|z| - 1] == "0" + ds[..|ds| - 1];
      LeadingZeroValue(ds[..|ds| - 1]);
    }
  }

  lemma {:induction false} StripZerosValue(ds: string)
    requires ds != [] && AllDigits(ds)
    ensures DecimalValue(StripZeros(ds)) == DecimalValue(ds)
  {
    if |ds| > 1 && ds[0] == '0' {
      assert ds == "0" + ds[1..];
      LeadingZeroValue(ds[1..]);
      StripZerosValue(ds[1..]);
    }
  }

  lemma {:induction false} LeadingDigitBound(ds: string)
    requires ds != [] && AllDigits(ds)
    ensures DecimalValue(ds) >= DigitValue(ds[0])
  {
    if |ds| > 1 {
      LeadingDigitBound(ds[..|ds| - 1]);
    }
  }

  /** A run of digits with no leading zero is the decimal spelling of its value. */
  lemma {:induction false} CanonicalSpelling(ds: string)
    requires ds != [] && AllDigits(ds) && (|ds| == 1 || ds[0] != '0')
    ensures DecimalString(DecimalValue(ds)) == ds
  {
    var n := DecimalValue(ds);
    var init := ds[..|ds| - 1];
    var d := DigitValue(ds[|ds| - 1]);
    if |ds| == 1 {
      assert init == [] && DecimalValue(init) == 0;
      assert n == d;
      assert DigitChar(d) == ds[0];
    } else {
      CanonicalSpelling(init);
      LeadingDigitBound(init);
      assert n == 10 * DecimalValue(init) + d;
      assert n / 10 == DecimalValue(init) && n % 10 == d;
      assert DigitChar(d) == ds[|ds| - 1];
      assert ds == init + [ds[|ds| - 1]];
    }
  }

  /** Atoi accepts nothing else: whatever it reads is an optional sign,
      possibly some zeros, and then the decimal spelling of the value's
      magnitude. With AtoiDecimal, Atoi(t) == Some(v) exactly for these t. */
  lemma AtoiSound(s: string)
    requires Atoi(s).Some?
    ensures s[0] == '+' || s[0] == '-' || Unsigned(s) == s
    ensures var v := Atoi(s).value;
      StripZeros(Unsigned(s)) == DecimalString(if v < 0 then -v else v)
  {
    var ds := Unsigned(s);
    StripZerosValue(ds);
    CanonicalSpelling(StripZeros(ds));
  }

  // ---------------------------------------------------------------------------
  // limit and page

  /** The `limit` query parameter: 10, unless it parses as a positive integer. */
  function ParseLimit(limitStr: string): (limit: int)
    ensures 0 < limit <= MaxInt64
    ensures limit == DefaultLimit || Atoi(limitStr) == Some(limit)
  {
    if limitStr != "" then
      match Atoi(limitStr)
      case Some(n) => if n > 0 then n else DefaultLimit
      case None => DefaultLimit
    else DefaultLimit
  }

  /** The `page` query parameter: 0, unless it parses as a positive integer. */
  function ParsePage(pageStr: string): (page: int)
    ensures 0 <= page <= MaxInt64
    ensures page == DefaultPage || Atoi(pageStr) == Some(page)
  {
    if pageStr != "" then
      match Atoi(pageStr)
      case Some(n) => if n > 0 then n else DefaultPage
      case None => DefaultPage
    else DefaultPage
  }

  /** A positive integer given in decimal overrides the default limit and page;
      zero, a negative number or anything unparsable leaves the defaults. */
  lemma ParsePagingOverrides(n: int, s: string)
    requires 0 < n <= MaxInt64
    ensures ParseLimit(DecimalString(n)) == n && ParsePage(DecimalString(n)) == n
    ensures ParseLimit("+" + DecimalString(n)) == n && ParsePage("+" + DecimalString(n)) == n
    ensures ParseLimit("-" + DecimalString(n)) == DefaultLimit
    ensures ParsePage("-" + DecimalString(n)) == DefaultPage
    ensures (Atoi(s).None? || Atoi(s).value <= 0) ==>
              ParseLimit(s) == DefaultLimit && ParsePage(s) == DefaultPage
  {
    AtoiDecimal(n);
    AtoiDecimal(-n);
  }

  // ---------------------------------------------------------------------------
  // the page window

  /** What `Find` returns with SetSkip(skip) and SetLimit(limit) over the
      matching records in their natural order. */
  function Window<T>(rows: seq<T>, skip: nat, limit: nat): (w: seq<T>)
    ensures |w| == if skip >= |rows| then 0 else Min(limit, |rows| - skip)
    ensures forall i :: 0 <= i < |w| ==> skip + i < |rows| && w[i] == rows[skip + i]
  {
    if skip >= |rows| then [] else rows[skip .. Min(skip + limit, |rows|)]
  }

  /** The skip the handlers mean: page * limit, in unbounded integers. */
  function Skip(page: nat, limit: nat): nat {
    page * limit
  }

  /** Page `page` of the matching records. */
  function PageRows<T>(rows: seq<T>, page: nat, limit: nat): seq<T> {
    Window(rows, Skip(page, limit), limit)
  }

  /** Pages 0, 1, ..., n - 1 laid end to end. */
  function Pages<T>(rows: seq<T>, limit: nat, n: nat): seq<T> {
    if n == 0 then [] else Pages(rows, limit, n - 1) + PageRows(rows, n - 1, limit)
  }

  /** The pages tile the matching records: the first n pages are exactly the
      first n * limit records, in order, with nothing skipped or repeated. */
  lemma {:induction false} PagesTile<T>(rows: seq<T>, limit: nat, n: nat)
    ensures Pages(rows, limit, n) == rows[..Min(n * limit, |rows|)]
  {
    if n > 0 {
      PagesTile(rows, limit, n - 1);
      var lo := Min((n - 1) * limit, |rows|);
      assert (n - 1) * limit + limit == n * limit;
      var hi := Min(n * limit, |rows|);
      assert PageRows(rows, n - 1, limit) == rows[lo..hi];
      assert rows[..lo] + rows[lo..hi] == rows[..hi];
    }
  }

  /** The record at position i of the matches is on page i / limit, at
      position i % limit of that page. */
  lemma OnItsPage<T>(rows: seq<T>, limit: nat, i: nat)
    requires 0 < limit && i < |rows|
    ensures i % limit < |PageRows(rows, i / limit, limit)|
    ensures PageRows(rows, i / limit, limit)[i % limit] == rows[i]
  {
    var p, k := i / limit, i % limit;
    assert p * limit + k == i;
    assert Skip(p, limit) == p * limit;
  }

  // ---------------------------------------------------------------------------
  // the skip as the handlers compute it

  /** Go's int arithmetic: the product is taken modulo 2^64, two's complement. */
  function WrapInt64(x: int): (r: int)
    ensures MinInt64 <= r <= MaxInt64
    ensures (r - x) % TwoTo64 == 0
  {
    var m := x % TwoTo64;
    if m > MaxInt64 then m - TwoTo64 else m
  }

  /** `int64(page*limit)` as written: the product of two Go ints. */
  function SkipAsWritten(page: int, limit: int): (skip: int)
    ensures MinInt64 <= skip <= MaxInt64
    ensures 0 <= page * limit <= MaxInt64 ==> skip == page * limit
  {
    WrapInt64(page * limit)
  }

  /** Page 2^61 of size 8 is past every record, yet the skip computed as
      written wraps to 0, so that request is answered with the first page. */
  lemma SkipWrapsToFirstPage<T>(rows: seq<T>)
    requires rows != [] && |rows| <= MaxInt64
    ensures ParsePage(DecimalString(0x2000_0000_0000_0000)) == 0x2000_0000_0000_0000
    ensures ParseLimit("8") == 8
    ensures SkipAsWritten(0x2000_0000_0000_0000, 8) == 0
    ensures PageRows(rows, 0x2000_0000_0000_0000, 8) == []
    ensures Window(rows, SkipAsWritten(0x2000_0000_0000_0000, 8), 8) == PageRows(rows, 0, 8) != []
  {
    ParsePagingOverrides(0x2000_0000_0000_0000, "");
    ParsePagingOverrides(8, "");
    assert DecimalString(8) == "8";
  }

  /** Page 2^62 of size 2: the skip as written wraps to -2^63, a negative skip
      the database refuses, so that request fails instead of answering with
      an empty page. */
  lemma SkipWrapsNegative()
    ensures ParsePage(DecimalString(0x4000_0000_0000_0000)) == 0x4000_0000_0000_0000
    ensures ParseLimit("2") == 2
    ensures SkipAsWritten(0x4000_0000_0000_0000, 2) == MinInt64 < 0
  {
    ParsePagingOverrides(0x4000_0000_0000_0000, "");
    ParsePagingOverrides(2, "");
    assert DecimalString(2) == "2";
  }

  /** The intended skip never fails: a page past the last match is empty, and
      a page that starts within the matches holds them from page * limit on. */
  lemma PastTheEndIsEmpty<T>(rows: seq<T>, page: nat, limit: nat)
    ensures Skip(page, limit) >= |rows| ==> PageRows(rows, page, limit) == []
    ensures Skip(page, limit) < |rows| && 0 < limit ==>
              PageRows(rows, page, limit) != [] && PageRows(rows, page, limit)[0] == rows[page * limit]
  {
  }
}
