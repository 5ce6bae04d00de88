/**
 * Best-effort scraping of a quote page for price and P/E. The regular
 * expressions are abstracted: a page is given by what each pattern's capture
 * group matched, in pattern order.
 */
module GoogleFinance {
  import opened Options
  import opened Rounding

  datatype GoogleFinanceData = GoogleFinanceData(peRatio: Option<real>, latestEarnings: Option<real>)

  const Nulls := GoogleFinanceData(None, None)

  /** What capture group 1 of each pattern matched (None: the pattern did not match). */
  datatype Page = Page(priceCaptures: seq<Option<string>>, peCaptures: seq<Option<string>>)

  /** The outcome of the HTTP GET: an exception, or a response with its `ok` flag and page. */
  datatype HttpOutcome = Threw | Answered(ok: bool, page: Page)

  // ---------------------------------------------------------------------------
  // Number parsing: `parseFloat(text.replace(/,/g, ''))`

  /** `replace(/,/g, '')`. */
  function StripCommas(s: string): (r: string)
    ensures forall i :: 0 <= i < |r| ==> r[i] != ','
    ensures |r| <= |s|
    ensures (forall i :: 0 <= i < |s| ==> s[i] != ',') ==> r == s
    decreases |s|
  {
    if s == [] then []
    else (if s[0] == ',' then [] else [s[0]]) + StripCommas(s[1..])
  }

  /** Stripping distributes over concatenation. */
  lemma {:induction false} StripCommasAppend(a: string, b: string)
    ensures StripCommas(a + b) == StripCommas(a) + StripCommas(b)
    decreases |a|
  {
    if a == [] {
      assert a + b == b;
    } else {
      assert (a + b)[0] == a[0];
      assert (a + b)[1..] == a[1..] + b;
      StripCommasAppend(a[1..], b);
    }
  }

  /** A comma is dropped; any other character is kept. */
  lemma StripCommasOne(c: char)
    ensures StripCommas([c]) == if c == ',' then [] else [c]
  {
    assert [c][1..] == [];
  }

  predicate IsDigit(c: char) {
    '0' <= c <= '9'
  }

  predicate AllDigits(s: string) {
    forall i :: 0 <= i < |s| ==> IsDigit(s[i])
  }

  /** The length of the run of digits that starts `s`. */
  function LeadingDigits(s: string): (n: nat)
    ensures n <= |s|
    ensures AllDigits(s[..n])
    ensures n < |s| ==> !IsDigit(s[n])
    decreases |s|
  {
    if s == [] || !IsDigit(s[0]) then 0 else 1 + LeadingDigits(s[1..])
  }

  /** The value of a decimal digit string. */
  function DigitsValue(s: string): (v: nat)
    requires AllDigits(s)
    decreases |s|
  {
    if s == [] then 0 else 10 * DigitsValue(s[..|s| - 1]) + (s[|s| - 1] as int - '0' as int)
  }

  function Pow10(n: nat): (p: nat)
    ensures p >= 1
  {
    if n == 0 then 1 else 10 * Pow10(n - 1)
  }

  /** The digits after a point that directly follows the integer digits, if any. */
  function FractionDigits(s: string): (frac: string)
    ensures AllDigits(frac)
  {
    var rest := s[LeadingDigits(s)..];
    if |rest| > 0 && rest[0] == '.' then rest[1..][..LeadingDigits(rest[1..])] else ""
  }

  /** A digit string with a decimal point before its last `fractionDigits` digits, as a real. */
  function DecimalValue(intDigits: string, fractionDigits: string): real
    requires AllDigits(intDigits) && AllDigits(fractionDigits)
  {
    DigitsValue(intDigits) as real + DigitsValue(fractionDigits) as real / Pow10(|fractionDigits|) as real
  }

  /**
   * `parseFloat` on the longest prefix of the form digits [ '.' digits ]
   * holding at least one digit; None stands for NaN.
   */
  function ParseFloat(s: string): (v: Option<real>)
    ensures v.Some? ==> v.value >= 0.0
  {
    var n := LeadingDigits(s);
    var frac := FractionDigits(s);
    if n == 0 && |frac| == 0 then None
    else Some(DecimalValue(s[..n], frac))
  }

  /** A digit string, a point and a digit string parse to their decimal value. */
  lemma ParseDecimal(a: string, b: string)
    requires AllDigits(a) && AllDigits(b) && |a| + |b| > 0
    ensures ParseFloat(a + "." + b) == Some(DecimalValue(a, b))
  {
    var s := a + "." + b;
    LeadingDigitsOfDigitsThen(a, "." + b);
    assert s == a + ("." + b);
    var rest := s[|a|..];
    assert rest == "." + b;
    assert rest[1..] == b;
    LeadingDigitsOfDigitsThen(b, "");
    assert b + "" == b;
    assert rest[1..][..LeadingDigits(rest[1..])] == b;
    assert FractionDigits(s) == b;
    assert s[..|a|] == a;
  }

  /** A non-empty digit string parses to its integer value. */
  lemma ParseInteger(a: string)
    requires AllDigits(a) && |a| > 0
    ensures ParseFloat(a) == Some(DigitsValue(a) as real)
  {
    AllDigitsIsLeading(a);
    assert a[..|a|] == a;
    assert DigitsValue([]) == 0 && Pow10(0) == 1;
  }

  /** A string of digits is all leading digits, with nothing after a point. */
  lemma AllDigitsIsLeading(a: string)
    requires AllDigits(a)
    ensures LeadingDigits(a) == |a|
    ensures FractionDigits(a) == ""
  {
    assert LeadingDigits(a) == |a| by {
      LeadingDigitsOfDigitsThen(a, "");
      assert a + "" == a;
    }
    assert a[LeadingDigits(a)..] == [];
  }

  lemma {:induction false} LeadingDigitsOfDigitsThen(a: string, t: string)
    requires AllDigits(a)
    requires t == [] || !IsDigit(t[0])
    ensures LeadingDigits(a + t) == |a|
    decreases |a|
  {
    if a != [] {
      assert (a + t)[1..] == a[1..] + t;
      LeadingDigitsOfDigitsThen(a[1..], t);
    } else {
      assert a + t == t;
    }
  }

  // ---------------------------------------------------------------------------
  // Candidate patterns, tried in order

  datatype Field = Price | PeRatio

  /** `value > 0` for a price, `value > 0 && value < 1000` for a P/E. */
  predicate Plausible(f: Field, v: real) {
    match f
    case Price => v > 0.0
    case PeRatio => 0.0 < v < 1000.0
  }

  /** The number a capture yields, if the capture is a non-empty string that parses. */
  function Candidate(capture: Option<string>): (v: Option<real>)
    ensures v.Some? ==> capture.Some? && capture.value != "" && v.value >= 0.0
  {
    if capture.Some? && capture.value != "" then ParseFloat(StripCommas(capture.value)) else None
  }

  /** The candidate number of every pattern, in pattern order. */
  function Candidates(captures: seq<Option<string>>): (vs: seq<Option<real>>)
    ensures |vs| == |captures|
    ensures forall i :: 0 <= i < |vs| ==> vs[i] == Candidate(captures[i])
  {
    seq(|captures|, i requires 0 <= i < |captures| => Candidate(captures[i]))
  }

  predicate Accepts(f: Field, v: Option<real>) {
    v.Some? && Plausible(f, v.value)
  }

  /** The first candidate, in pattern order, that is plausible. */
  function FirstPlausible(f: Field, vs: seq<Option<real>>): (r: Option<real>)
    ensures r.Some? ==> Plausible(f, r.value)
    decreases |vs|
  {
    if vs == [] then None
    else if Accepts(f, vs[0]) then vs[0]
    else FirstPlausible(f, vs[1..])
  }

  /** What `extractPrice` / `extractPERatio` return for a page's captures. */
  function Extracted(f: Field, captures: seq<Option<string>>): (r: Option<real>)
    ensures r.Some? ==> Plausible(f, r.value)
    ensures (forall i :: 0 <= i < |captures| ==> !Accepts(f, Candidate(captures[i]))) ==> r.None?
  {
    FirstPlausibleNone(f, Candidates(captures));
    FirstPlausible(f, Candidates(captures))
  }

  /** The value found comes from a plausible candidate, and every earlier one was not. */
  lemma {:induction false} FirstPlausibleIsFirst(f: Field, vs: seq<Option<real>>) returns (i: nat)
    requires FirstPlausible(f, vs).Some?
    ensures i < |vs| && Accepts(f, vs[i]) && vs[i] == FirstPlausible(f, vs)
    ensures forall j :: 0 <= j < i ==> !Accepts(f, vs[j])
    decreases |vs|
  {
    if Accepts(f, vs[0]) {
      i := 0;
    } else {
      var rest := vs[1..];
      var k := FirstPlausibleIsFirst(f, rest);
      i := k + 1;
      assert vs[i] == rest[k];
      forall j | 0 <= j < i
        ensures !Accepts(f, vs[j])
      {
        if j > 0 {
          assert vs[j] == rest[j - 1];
        }
      }
    }
  }

  /** Nothing is found exactly when no candidate is plausible. */
  lemma {:induction false} FirstPlausibleNone(f: Field, vs: seq<Option<real>>)
    ensures FirstPlausible(f, vs).None? <==> forall i :: 0 <= i < |vs| ==> !Accepts(f, vs[i])
    decreases |vs|
  {
    if vs != [] {
      FirstPlausibleNone(f, vs[1..]);
      assert forall i :: 1 <= i < |vs| ==> vs[i] == vs[1..][i - 1];
    }
  }

  /** The loop over the patterns, with its early return. */
  method ExtractFirst(f: Field, captures: seq<Option<string>>) returns (r: Option<real>)
    ensures r == Extracted(f, captures)
  {
    ghost var vs := Candidates(captures);
    var i := 0;
    while i < |captures|
      invariant 0 <= i <= |captures|
      invariant Extracted(f, captures) == FirstPlausible(f, vs[i..])
    {
      assert vs[i..][1..] == vs[i + 1..];
      var capture := captures[i];
      if capture.Some? && capture.value != "" {
        var value := ParseFloat(StripCommas(capture.value));
        if value.Some? && Plausible(f, value.value) {
          return value;
        }
      }
      i := i + 1;
    }
    return None;
  }

  /** `extractPrice`: null or a strictly positive price. */
  method ExtractPrice(captures: seq<Option<string>>) returns (r: Option<real>)
    ensures r == Extracted(Price, captures)
    ensures r.Some? ==> r.value > 0.0
  {
    r := ExtractFirst(Price, captures);
  }

  /** `extractPERatio`: null or a P/E strictly between 0 and 1000. */
  method ExtractPERatio(captures: seq<Option<string>>) returns (r: Option<real>)
    ensures r == Extracted(PeRatio, captures)
    ensures r.Some? ==> 0.0 < r.value < 1000.0
  {
    r := ExtractFirst(PeRatio, captures);
  }

  // ---------------------------------------------------------------------------
  // One symbol, and the batch

  /** `peRatio && price && peRatio > 0`: then earnings are price / P/E in hundredths. */
  function DerivedEarnings(price: Option<real>, peRatio: Option<real>): (e: Option<real>)
    ensures e.Some? <==> price.Some? && price.value != 0.0 && peRatio.Some? && peRatio.value > 0.0
    ensures e.Some? ==> IsCents(e.value) && -0.005 <= e.value - price.value / peRatio.value <= 0.005
  {
    if peRatio.Some? && peRatio.value != 0.0 && price.Some? && price.value != 0.0 && peRatio.value > 0.0
    then Some(Round2(price.value / peRatio.value))
    else None
  }

  /**
   * The result `fetchGoogleFinanceData` produces for an HTTP outcome: nulls on
   * an exception or a non-2xx status, otherwise the extracted P/E and the
   * earnings derived from it and the extracted price.
   */
  function Scrape(o: HttpOutcome): (g: GoogleFinanceData)
    ensures (o.Threw? || !o.ok) ==> g == Nulls
    ensures o.Answered? && o.ok ==> g.peRatio == Extracted(PeRatio, o.page.peCaptures)
    ensures g.peRatio.Some? ==> 0.0 < g.peRatio.value < 1000.0
    ensures g.latestEarnings.Some? <==>
      o.Answered? && o.ok && g.peRatio.Some? && Extracted(Price, o.page.priceCaptures).Some?
    ensures g.latestEarnings.Some? ==>
      && g.latestEarnings.value >= 0.0
      && g.latestEarnings.value == Round2(Extracted(Price, o.page.priceCaptures).value / g.peRatio.value)
  {
    match o
    case Threw => Nulls
    case Answered(ok, page) =>
      if !ok then Nulls
      else
        var peRatio := Extracted(PeRatio, page.peCaptures);
        var price := Extracted(Price, page.priceCaptures);
        GoogleFinanceData(peRatio, DerivedEarnings(price, peRatio))
  }

  /** `fetchGoogleFinanceData`, with the HTTP outcome as input; it never throws. */
  method FetchGoogleFinanceData(o: HttpOutcome) returns (g: GoogleFinanceData)
    ensures g == Scrape(o)
  {
    if o.Threw? || !o.ok {
      return Nulls;
    }
    var peRatio := ExtractPERatio(o.page.peCaptures);
    var price := ExtractPrice(o.page.priceCaptures);
    var latestEarnings: Option<real> := None;
    if peRatio.Some? && peRatio.value != 0.0 && price.Some? && price.value != 0.0 && peRatio.value > 0.0 {
      latestEarnings := Some(Round2(price.value / peRatio.value));
    }
    g := GoogleFinanceData(peRatio, latestEarnings);
  }

  /**
   * `fetchAllGoogleFinanceData`: one map entry per distinct symbol, holding
   * that symbol's scrape result (nulls on any failure).
   */
  method FetchAllGoogleFinanceData(symbols: seq<string>, respond: string -> HttpOutcome)
    returns (results: map<string, GoogleFinanceData>)
    ensures results.Keys == set s | s in symbols
    ensures forall s :: s in results ==> results[s] == Scrape(respond(s))
  {
    results := map[];
    var i := 0;
    while i < |symbols|
      invariant 0 <= i <= |symbols|
      invariant results.Keys == set s | s in symbols[..i]
      invariant forall s :: s in results ==> results[s] == Scrape(respond(s))
    {
      var data := FetchGoogleFinanceData(respond(symbols[i]));
      results := results[symbols[i] := data];
      assert symbols[..i + 1] == symbols[..i] + [symbols[i]];
      i := i + 1;
    }
    assert symbols[..i] == symbols;
  }

  lemma CommaStrippedFromThousands()
    ensures StripCommas("1,500") == "1500"
  {
    var tail := "500";
    assert StripCommas(tail) == tail by {
      assert forall i :: 0 <= i < |tail| ==> tail[i] != ',';
    }
    assert "1,500"[1..] == "," + tail;
    assert ("," + tail)[1..] == tail;
  }

  lemma CommaStrippedFromPrice()
    ensures StripCommas("1,234.50") == "1234.50"
  {
    var tail := "234.50";
    assert StripCommas(tail) == tail by {
      assert forall i :: 0 <= i < |tail| ==> tail[i] != ',';
    }
    assert "1,234.50"[1..] == "," + tail;
    assert ("," + tail)[1..] == tail;
  }

  lemma ValueOf1500()
    ensures DigitsValue("1500") == 1500
  {
    assert "1500"[..3] == "150" && "150"[..2] == "15" && "15"[..1] == "1" && "1"[..0] == "";
  }

  lemma ValueOf1234()
    ensures DigitsValue("1234") == 1234
  {
    assert "1234"[..3] == "123" && "123"[..2] == "12" && "12"[..1] == "1" && "1"[..0] == "";
  }

  lemma ValuesOfShortStrings()
    ensures DigitsValue("22") == 22 && DigitsValue("5") == 5 && DigitsValue("50") == 50
  {
    assert "22"[..1] == "2" && "2"[..0] == "" && "5"[..0] == "" && "50"[..1] == "5";
  }

  lemma ParsesWholeNumber()
    ensures ParseFloat("1500") == Some(1500.0)
  {
    ValueOf1500();
    ParseInteger("1500");
  }

  lemma ParsesOneDecimal()
    ensures ParseFloat("22.5") == Some(22.5)
  {
    ValuesOfShortStrings();
    ParseDecimal("22", "5");
    assert "22" + "." + "5" == "22.5";
  }

  lemma ParsesTwoDecimals()
    ensures ParseFloat("1234.50") == Some(1234.5)
  {
    assert DecimalValue("1234", "50") == 1234.5 by {
      ValueOf1234();
      ValuesOfShortStrings();
      assert Pow10(2) == 100 by {
        assert Pow10(1) == 10;
      }
    }
    ParseDecimal("1234", "50");
    assert "1234" + "." + "50" == "1234.50";
  }

  lemma CandidateOfThousands()
    ensures Candidate(Some("1,500")) == Some(1500.0)
  {
    CommaStrippedFromThousands();
    ParsesWholeNumber();
  }

  lemma CandidateOfOneDecimal()
    ensures Candidate(Some("22.5")) == Some(22.5)
  {
    assert StripCommas("22.5") == "22.5";
    ParsesOneDecimal();
  }

  lemma CandidateOfPrice()
    ensures Candidate(Some("1,234.50")) == Some(1234.5)
  {
    CommaStrippedFromPrice();
    ParsesTwoDecimals();
  }

  /** The first P/E capture, 1500 once its comma is removed, is out of bounds; the second, 22.5, wins. */
  lemma PeFallsThroughToSecondPattern()
    ensures Extracted(PeRatio, [Some("1,500"), Some("22.5")]) == Some(22.5)
  {
    CandidateOfThousands();
    CandidateOfOneDecimal();
    var vs := Candidates([Some("1,500"), Some("22.5")]);
    assert vs[0] == Some(1500.0) && vs[1] == Some(22.5);
    assert vs[1..] == [Some(22.5)];
  }

  /** The first price capture "1,234.50" is plausible and wins. */
  lemma PriceFromFirstPattern()
    ensures Extracted(Price, [Some("1,234.50"), None]) == Some(1234.5)
  {
    CandidateOfPrice();
    assert Candidates([Some("1,234.50"), None])[0] == Some(1234.5);
  }

  /**
   * A page whose first P/E pattern matched "1,500" and whose second matched
   * "22.5" gives P/E 22.5; with price "1,234.50" the earnings are
   * 1234.5 / 22.5 in hundredths.
   */
  lemma ScrapeFallsThroughToSecondPattern()
    ensures Scrape(Answered(true, Page([Some("1,234.50"), None], [Some("1,500"), Some("22.5")])))
            == GoogleFinanceData(Some(22.5), Some(Round2(1234.5 / 22.5)))
  {
    PeFallsThroughToSecondPattern();
    PriceFromFirstPattern();
  }
}
