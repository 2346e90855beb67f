/** Reconciling a carrier's monthly bill: one detail per bill line with its payable fees, two counters,
    and a summary per account. Amounts are rationals, modelled as `real`. */
module Reconciliation {
  import opened Options

  datatype BillLine = BillLine(
    account: string, productCode: string, weightRange: real, parcelQuantity: nat, countryCode: string,
    actualShippingFee: real, actualFuelFee: real)

  datatype CostPrice = CostPrice(productCodes: seq<string>, weightRange: real, zones: seq<string>, unitPrice: real)
  datatype FuelRate = FuelRate(month: string, account: string, trackingNumberPrefix: string, value: real)

  datatype Detail = Detail(
    account: string, productCode: string, weightRange: real, parcelQuantity: nat, countryCode: string, lineNumber: nat,
    unitPrice: Option<real>, payableShippingFee: Option<real>, payableFuelFee: Option<real>,
    actualShippingFee: real, actualFuelFee: real, isError: bool, errorMessage: Option<string>)

  // ---------------------------------------------------------------- arithmetic

  const UNIT: real := 0.000001

  /** `_.round(x, 6)`: halves go up. */
  function Round6(x: real): real { (x * 1000000.0 + 0.5).Floor as real / 1000000.0 }

  function Product(a: real, b: real): real { a * b }

  /** `multiply(a, b, 6)`. */
  function Multiply6(a: real, b: real): real { Round6(Product(a, b)) }

  function Abs(x: real): real { if x < 0.0 then -x else x }

  lemma Round6Error(x: real)
    ensures Abs(Round6(x) - x) <= UNIT / 2.0
  {
    var y := x * 1000000.0 + 0.5;
    assert y - 1.0 < y.Floor as real <= y;
  }

  // ---------------------------------------------------------------- one line

  predicate PriceFits(p: CostPrice, line: BillLine) {
    && line.productCode in p.productCodes && p.weightRange == line.weightRange
    && (line.countryCode in p.zones || "ALL" in p.zones)
  }

  predicate RateFits(r: FuelRate, line: BillLine, yearMonth: string) {
    r.month == yearMonth && r.account == line.account && r.trackingNumberPrefix == line.productCode
  }

  function FindPrice(prices: seq<CostPrice>, line: BillLine): Option<CostPrice> {
    if prices == [] then None else if PriceFits(prices[0], line) then Some(prices[0]) else FindPrice(prices[1..], line)
  }

  function FindRate(rates: seq<FuelRate>, line: BillLine, yearMonth: string): Option<FuelRate> {
    if rates == [] then None else if RateFits(rates[0], line, yearMonth) then Some(rates[0])
    else FindRate(rates[1..], line, yearMonth)
  }

  /** The first price that fits, if any does. */
  lemma {:induction false} FirstPrice(prices: seq<CostPrice>, line: BillLine, k: nat)
    requires k < |prices| && PriceFits(prices[k], line) && forall j :: 0 <= j < k ==> !PriceFits(prices[j], line)
    ensures FindPrice(prices, line) == Some(prices[k])
  {
    if k > 0 {
      FirstPrice(prices[1..], line, k - 1);
    }
  }

  /** The first rate that fits, if any does. */
  lemma {:induction false} FirstRate(rates: seq<FuelRate>, line: BillLine, yearMonth: string, k: nat)
    requires k < |rates| && RateFits(rates[k], line, yearMonth)
             && forall j :: 0 <= j < k ==> !RateFits(rates[j], line, yearMonth)
    ensures FindRate(rates, line, yearMonth) == Some(rates[k])
  {
    if k > 0 {
      FirstRate(rates[1..], line, yearMonth, k - 1);
    }
  }

  const NO_PRICE := "未找到该产品单价配置"
  const NO_RATE := "未找到燃油费率配置"

  function BuildDetail(line: BillLine, lineNumber: nat, price: Option<CostPrice>, rate: Option<FuelRate>): Detail {
    var shipping := if price.Some? then Some(Multiply6(line.parcelQuantity as real, price.value.unitPrice)) else None;
    var fuel := if price.Some? && rate.Some? then Some(Multiply6(shipping.value, rate.value.value / 100.0)) else None;
    Detail(line.account, line.productCode, line.weightRange, line.parcelQuantity, line.countryCode, lineNumber,
           if price.Some? then Some(price.value.unitPrice) else None, shipping, fuel,
           Round6(line.actualShippingFee), Round6(line.actualFuelFee),
           !(price.Some? && rate.Some?),
           if price.None? && rate.None? then Some(NO_PRICE + "," + NO_RATE)
           else if price.None? then Some(NO_PRICE) else if rate.None? then Some(NO_RATE) else None)
  }

  /** A detail is an error exactly when it has a message, and exactly when it has no payable fuel fee. */
  lemma ErrorExactly(line: BillLine, lineNumber: nat, price: Option<CostPrice>, rate: Option<FuelRate>)
    ensures var d := BuildDetail(line, lineNumber, price, rate);
            && (d.isError <==> d.payableFuelFee.None?) && (d.isError <==> d.errorMessage.Some?)
            && (d.payableShippingFee.Some? <==> price.Some?)
  {
  }

  // ---------------------------------------------------------------- what a detail holds

  /** The price at k is the first one for the line's product, weight range, and country or all countries. */
  predicate PriceAt(prices: seq<CostPrice>, line: BillLine, k: nat) {
    && k < |prices|
    && line.productCode in prices[k].productCodes && prices[k].weightRange == line.weightRange
    && (line.countryCode in prices[k].zones || "ALL" in prices[k].zones)
    && forall j :: 0 <= j < k ==>
         line.productCode !in prices[j].productCodes || prices[j].weightRange != line.weightRange
         || (line.countryCode !in prices[j].zones && "ALL" !in prices[j].zones)
  }

  /** The rate at k is the first one of the month for the line's account and product. */
  predicate RateAt(rates: seq<FuelRate>, line: BillLine, yearMonth: string, k: nat) {
    && k < |rates|
    && rates[k].month == yearMonth && rates[k].account == line.account
    && rates[k].trackingNumberPrefix == line.productCode
    && forall j :: 0 <= j < k ==>
         rates[j].month != yearMonth || rates[j].account != line.account
         || rates[j].trackingNumberPrefix != line.productCode
  }

  ghost predicate HasPrice(prices: seq<CostPrice>, line: BillLine) { exists k: nat :: PriceAt(prices, line, k) }

  ghost predicate HasRate(rates: seq<FuelRate>, line: BillLine, yearMonth: string) {
    exists k: nat :: RateAt(rates, line, yearMonth, k)
  }

  /** y is the multiple of a millionth nearest to x, the greater one of two. */
  predicate RoundsTo(x: real, y: real) {
    (y * 1000000.0).Floor as real == y * 1000000.0 && -0.0000005 < y - x <= 0.0000005
  }

  /** A detail by its columns: those of its line, the fees that the first fitting price and rate give, and an
      error that names what is missing. */
  ghost predicate DetailMeans(d: Detail, line: BillLine, lineNumber: nat, prices: seq<CostPrice>, rates: seq<FuelRate>,
                              yearMonth: string)
  {
    && d.account == line.account && d.productCode == line.productCode && d.weightRange == line.weightRange
    && d.parcelQuantity == line.parcelQuantity && d.countryCode == line.countryCode && d.lineNumber == lineNumber
    && RoundsTo(line.actualShippingFee, d.actualShippingFee) && RoundsTo(line.actualFuelFee, d.actualFuelFee)
    && PayableMeans(d, prices, rates, line, yearMonth)
    && (d.isError <==> !HasPrice(prices, line) || !HasRate(rates, line, yearMonth))
    && d.errorMessage ==
       if HasPrice(prices, line) && HasRate(rates, line, yearMonth) then None
       else if HasPrice(prices, line) then Some("未找到燃油费率配置")
       else if HasRate(rates, line, yearMonth) then Some("未找到该产品单价配置")
       else Some("未找到该产品单价配置,未找到燃油费率配置")
  }

  ghost predicate PayableMeans(d: Detail, prices: seq<CostPrice>, rates: seq<FuelRate>, line: BillLine,
                               yearMonth: string)
  {
    && (!HasPrice(prices, line) ==> d.unitPrice == None && d.payableShippingFee == None && d.payableFuelFee == None)
    && (!HasRate(rates, line, yearMonth) ==> d.payableFuelFee == None)
    && (forall k: nat :: PriceAt(prices, line, k) ==> ShippingMeans(d, line, prices[k]))
    && (forall k: nat :: RateAt(rates, line, yearMonth, k) && d.payableShippingFee.Some? ==> FuelMeans(d, rates[k]))
  }

  predicate ShippingMeans(d: Detail, line: BillLine, price: CostPrice) {
    && d.unitPrice == Some(price.unitPrice) && d.payableShippingFee.Some?
    && RoundsTo(line.parcelQuantity as real * price.unitPrice, d.payableShippingFee.value)
  }

  predicate FuelMeans(d: Detail, rate: FuelRate)
    requires d.payableShippingFee.Some?
  {
    d.payableFuelFee.Some? && RoundsTo(d.payableShippingFee.value * (rate.value / 100.0), d.payableFuelFee.value)
  }

  lemma Round6RoundsTo(x: real)
    ensures RoundsTo(x, Round6(x))
  {
    var y := (x * 1000000.0 + 0.5).Floor;
    assert Round6(x) * 1000000.0 == y as real;
    assert y as real <= x * 1000000.0 + 0.5 < y as real + 1.0;
  }

  lemma {:induction false} PriceFound(prices: seq<CostPrice>, line: BillLine)
    ensures FindPrice(prices, line).Some? <==> HasPrice(prices, line)
    ensures forall k: nat :: PriceAt(prices, line, k) ==> FindPrice(prices, line) == Some(prices[k])
  {
    if prices != [] {
      var rest := prices[1..];
      PriceFound(rest, line);
      if PriceFits(prices[0], line) {
        assert PriceAt(prices, line, 0);
      } else {
        forall k: nat | PriceAt(prices, line, k) ensures FindPrice(prices, line) == Some(prices[k]) {
          assert PriceAt(rest, line, k - 1);
        }
        if k: nat :| PriceAt(rest, line, k) { assert PriceAt(prices, line, k + 1); }
      }
    }
  }

  lemma {:induction false} RateFound(rates: seq<FuelRate>, line: BillLine, yearMonth: string)
    ensures FindRate(rates, line, yearMonth).Some? <==> HasRate(rates, line, yearMonth)
    ensures forall k: nat :: RateAt(rates, line, yearMonth, k) ==> FindRate(rates, line, yearMonth) == Some(rates[k])
  {
    if rates != [] {
      var rest := rates[1..];
      RateFound(rest, line, yearMonth);
      if RateFits(rates[0], line, yearMonth) {
        assert RateAt(rates, line, yearMonth, 0);
      } else {
        forall k: nat | RateAt(rates, line, yearMonth, k)
          ensures FindRate(rates, line, yearMonth) == Some(rates[k])
        {
          assert RateAt(rest, line, yearMonth, k - 1);
        }
        if k: nat :| RateAt(rest, line, yearMonth, k) { assert RateAt(rates, line, yearMonth, k + 1); }
      }
    }
  }

  lemma ShippingFee(line: BillLine, lineNumber: nat, price: CostPrice, rate: Option<FuelRate>)
    ensures ShippingMeans(BuildDetail(line, lineNumber, Some(price), rate), line, price)
  {
    Round6RoundsTo(Product(line.parcelQuantity as real, price.unitPrice));
  }

  lemma FuelFee(line: BillLine, lineNumber: nat, price: CostPrice, rate: FuelRate)
    ensures FuelMeans(BuildDetail(line, lineNumber, Some(price), Some(rate)), rate)
  {
    Round6RoundsTo(Product(Multiply6(line.parcelQuantity as real, price.unitPrice), rate.value / 100.0));
  }

  lemma BuiltPayable(line: BillLine, lineNumber: nat, prices: seq<CostPrice>, rates: seq<FuelRate>, yearMonth: string)
    ensures PayableMeans(BuildDetail(line, lineNumber, FindPrice(prices, line), FindRate(rates, line, yearMonth)),
                         prices, rates, line, yearMonth)
  {
    var price, rate := FindPrice(prices, line), FindRate(rates, line, yearMonth);
    PriceFound(prices, line);
    RateFound(rates, line, yearMonth);
    var d := BuildDetail(line, lineNumber, price, rate);
    forall k: nat | PriceAt(prices, line, k) ensures ShippingMeans(d, line, prices[k]) {
      ShippingFee(line, lineNumber, prices[k], rate);
    }
    forall k: nat | RateAt(rates, line, yearMonth, k) && d.payableShippingFee.Some? ensures FuelMeans(d, rates[k]) {
      FuelFee(line, lineNumber, price.value, rates[k]);
    }
  }

  lemma BuiltDetail(line: BillLine, lineNumber: nat, prices: seq<CostPrice>, rates: seq<FuelRate>, yearMonth: string)
    ensures DetailMeans(BuildDetail(line, lineNumber, FindPrice(prices, line), FindRate(rates, line, yearMonth)),
                        line, lineNumber, prices, rates, yearMonth)
  {
    PriceFound(prices, line);
    RateFound(rates, line, yearMonth);
    Round6RoundsTo(line.actualShippingFee);
    Round6RoundsTo(line.actualFuelFee);
    BuiltPayable(line, lineNumber, prices, rates, yearMonth);
    assert NO_PRICE + "," + NO_RATE == "未找到该产品单价配置,未找到燃油费率配置";
  }

  /** The details built from the lines, one by one. */
  lemma {:induction false} BuiltDetails(lines: seq<BillLine>, prices: seq<CostPrice>, rates: seq<FuelRate>,
                                        yearMonth: string)
    ensures var ds := BuildDetails(lines, prices, rates, yearMonth);
            |ds| == |lines| && forall k :: 0 <= k < |lines| ==>
              DetailMeans(ds[k], lines[k], k + 1, prices, rates, yearMonth)
  {
    forall k | 0 <= k < |lines|
      ensures DetailMeans(BuildDetails(lines, prices, rates, yearMonth)[k], lines[k], k + 1, prices, rates, yearMonth)
    {
      LineNumbers(lines, prices, rates, yearMonth, k);
      BuiltDetail(lines[k], k + 1, prices, rates, yearMonth);
    }
  }

  /** The fuel fee before any rounding. */
  function ExactFuel(line: BillLine, price: CostPrice, rate: FuelRate): real {
    Product(Product(line.parcelQuantity as real, price.unitPrice), rate.value / 100.0)
  }

  lemma Distribute(a: real, b: real, c: real)
    ensures (a + b) * c == a * c + b * c
  {
  }

  lemma Negate(a: real, b: real)
    ensures (-a) * b == -(a * b) && a * (-b) == -(a * b)
  {
    Distribute(a, -a, b);
    Distribute(b, -b, a);
  }

  lemma ProductMonotone(a: real, b: real, c: real)
    requires a >= 0.0 && b <= c
    ensures b * a <= c * a
  {
    Distribute(b, c - b, a);
  }

  lemma ScaledError(e: real, r: real, half: real)
    requires Abs(e) <= half
    ensures Abs(e * r) <= half * Abs(r)
  {
    ProductMonotone(Abs(r), e, half);
    ProductMonotone(Abs(r), -e, half);
    Negate(e, Abs(r));
    Negate(e, r);
  }

  lemma Triangle(a: real, b: real, c: real, first: real, second: real)
    requires Abs(a - b) <= first && Abs(b - c) <= second
    ensures Abs(a - c) <= first + second
  {
  }

  /** Errors of at most `half` in the first and in the second stage. */
  lemma StagesAdd(first: real, x: real, r: real, second: real, half: real)
    requires Abs(first - x) <= half && Abs(second - Product(first, r)) <= half
    ensures Abs(second - Product(x, r)) <= (1.0 + Abs(r)) * half
  {
    ScaledError(first - x, r, half);
    Distribute(first - x, x, r);
    Distribute(1.0, Abs(r), half);
    Triangle(second, first * r, x * r, half, half * Abs(r));
  }

  lemma TwoStageError(q: real, u: real, r: real)
    ensures Abs(Multiply6(Multiply6(q, u), r) - Product(Product(q, u), r)) <= (1.0 + Abs(r)) * (UNIT / 2.0)
  {
    var x := Product(q, u);
    var first := Round6(x);
    Round6Error(x);
    Round6Error(Product(first, r));
    StagesAdd(first, x, r, Multiply6(first, r), UNIT / 2.0);
  }

  /** Rounding in two stages costs at most half a unit for the product and half a unit times the rate
      for the shipping fee inside it. */
  lemma FuelErrorBound(line: BillLine, lineNumber: nat, price: CostPrice, rate: FuelRate)
    ensures var d := BuildDetail(line, lineNumber, Some(price), Some(rate));
            Abs(d.payableFuelFee.value - ExactFuel(line, price, rate)) <= (1.0 + Abs(rate.value / 100.0)) * (UNIT / 2.0)
  {
    TwoStageError(line.parcelQuantity as real, price.unitPrice, rate.value / 100.0);
  }

  // ---------------------------------------------------------------- all lines

  function BuildDetails(lines: seq<BillLine>, prices: seq<CostPrice>, rates: seq<FuelRate>,
                        yearMonth: string): (ds: seq<Detail>)
    ensures |ds| == |lines|
  {
    if lines == [] then []
    else
      var n := |lines| - 1;
      BuildDetails(lines[..n], prices, rates, yearMonth)
      + [BuildDetail(lines[n], n + 1, FindPrice(prices, lines[n]), FindRate(rates, lines[n], yearMonth))]
  }

  function CountErrors(ds: seq<Detail>): nat {
    if ds == [] then 0 else CountErrors(ds[..|ds| - 1]) + if ds[|ds| - 1].isError then 1 else 0
  }

  /** The details of the first i lines. */
  predicate DetailsOf(ds: seq<Detail>, lines: seq<BillLine>, prices: seq<CostPrice>, rates: seq<FuelRate>,
                      yearMonth: string, i: nat)
  {
    i == |ds| <= |lines| && ds == BuildDetails(lines[..i], prices, rates, yearMonth)
  }

  lemma OneMoreDetail(ds: seq<Detail>, lines: seq<BillLine>, prices: seq<CostPrice>, rates: seq<FuelRate>,
                      yearMonth: string, i: nat)
    requires i < |lines| && DetailsOf(ds, lines, prices, rates, yearMonth, i)
    ensures var d := BuildDetail(lines[i], i + 1, FindPrice(prices, lines[i]), FindRate(rates, lines[i], yearMonth));
            DetailsOf(ds + [d], lines, prices, rates, yearMonth, i + 1)
  {
    assert lines[..i + 1][..i] == lines[..i];
  }

  lemma CountAppend(ds: seq<Detail>, d: Detail)
    ensures CountErrors(ds + [d]) == CountErrors(ds) + if d.isError then 1 else 0
  {
    assert (ds + [d])[..|ds|] == ds;
  }

  /** A reconciliation task: the saved details, the two counters, and the increments sent but not yet
      landed, in no particular order. */
  class Task {
    const total: nat
    var details: seq<Detail>
    var success: nat
    var failed: nat
    var pendingSuccess: nat
    var pendingFailed: nat

    ghost predicate Valid()
      reads this
    {
      failed + pendingFailed == CountErrors(details) && success + pendingSuccess + CountErrors(details) == |details|
    }

    constructor (total: nat)
      ensures Valid() && this.total == total && details == []
              && success == failed == pendingSuccess == pendingFailed == 0
    {
      this.total, details, success, failed, pendingSuccess, pendingFailed := total, [], 0, 0, 0, 0;
    }

    /** One of the increments that nobody awaits lands. */
    method Land(error: bool)
      requires Valid() && (if error then pendingFailed else pendingSuccess) > 0
      modifies this`success, this`failed, this`pendingSuccess, this`pendingFailed
      ensures Valid()
      ensures success == old(success) + (if error then 0 else 1)
              && pendingSuccess == old(pendingSuccess) - (if error then 0 else 1)
      ensures failed == old(failed) + (if error then 1 else 0)
              && pendingFailed == old(pendingFailed) - (if error then 1 else 0)
    {
      if error {
        failed, pendingFailed := failed + 1, pendingFailed - 1;
      } else {
        success, pendingSuccess := success + 1, pendingSuccess - 1;
      }
    }

    /** While the run waits, any increments land, in any order. */
    method LandSome()
      requires Valid()
      modifies this`success, this`failed, this`pendingSuccess, this`pendingFailed
      ensures Valid()
      ensures success + failed + pendingSuccess + pendingFailed
              == old(success + failed + pendingSuccess + pendingFailed)
      ensures success >= old(success) && failed >= old(failed)
    {
      while pendingSuccess + pendingFailed > 0
        invariant Valid() && success >= old(success) && failed >= old(failed)
        invariant success + failed + pendingSuccess + pendingFailed
                  == old(success + failed + pendingSuccess + pendingFailed)
        decreases pendingSuccess + pendingFailed
      {
        var stop: bool, error: bool := *, *;
        if stop {
          return;
        }
        Land(if error then pendingFailed > 0 else pendingSuccess == 0);
      }
    }

    /** A detail is saved, and the increment of its counter is sent without being awaited; or the save throws. */
    method SaveDetail(d: Detail) returns (ok: bool)
      requires Valid()
      modifies this`details, this`pendingSuccess, this`pendingFailed
      ensures Valid() && details == if ok then old(details) + [d] else old(details)
      ensures pendingFailed == old(pendingFailed) + if ok && d.isError then 1 else 0
      ensures pendingSuccess == old(pendingSuccess) + if ok && !d.isError then 1 else 0
    {
      ok := *;
      if !ok {
        return;
      }
      CountAppend(details, d);
      details := details + [d];
      if d.isError {
        pendingFailed := pendingFailed + 1;
      } else {
        pendingSuccess := pendingSuccess + 1;
      }
    }

    /** `addReconcileDetails`: the details of all lines, or of those before the first save that throws. */
    method AddReconcileDetails(billDetails: seq<BillLine>, costPrices: seq<CostPrice>, fuelRates: seq<FuelRate>,
                               yearMonth: string)
      returns (ok: bool, reconcileDetails: seq<Detail>)
      requires Valid() && details == [] && total == |billDetails|
      modifies this`details, this`success, this`failed, this`pendingSuccess, this`pendingFailed
      ensures Valid() && |details| <= |billDetails| && (ok <==> |details| == |billDetails|)
      ensures details == BuildDetails(billDetails[..|details|], costPrices, fuelRates, yearMonth)
      ensures ok ==> reconcileDetails == details == BuildDetails(billDetails, costPrices, fuelRates, yearMonth)
      ensures forall k :: 0 <= k < |details| ==>
                DetailMeans(details[k], billDetails[k], k + 1, costPrices, fuelRates, yearMonth)
    {
      ok, reconcileDetails := true, [];
      var i := 0;
      while i < |billDetails|
        invariant 0 <= i <= |billDetails| && Valid()
        invariant reconcileDetails == details && DetailsOf(details, billDetails, costPrices, fuelRates, yearMonth, i)
      {
        var line := billDetails[i];
        var reconcileDetail := BuildDetail(line, i + 1, FindPrice(costPrices, line),
                                           FindRate(fuelRates, line, yearMonth));
        OneMoreDetail(details, billDetails, costPrices, fuelRates, yearMonth, i);
        reconcileDetails := reconcileDetails + [reconcileDetail];
        ok := SaveDetail(reconcileDetail);
        if !ok {
          BuiltDetails(billDetails[..i], costPrices, fuelRates, yearMonth);
          return;
        }
        LandSome();
        i := i + 1;
      }
      assert billDetails[..i] == billDetails;
      BuiltDetails(billDetails, costPrices, fuelRates, yearMonth);
    }

    /** Once every increment has landed, the counters say how many lines failed, and add up to the total. */
    lemma CountersLand()
      requires Valid() && pendingSuccess == pendingFailed == 0 && |details| == total
      ensures success + failed == total && failed == CountErrors(details)
    {
    }
  }

  lemma {:induction false} LineNumbers(lines: seq<BillLine>, prices: seq<CostPrice>, rates: seq<FuelRate>,
                                       yearMonth: string, k: nat)
    requires k < |lines|
    ensures BuildDetails(lines, prices, rates, yearMonth)[k] ==
            BuildDetail(lines[k], k + 1, FindPrice(prices, lines[k]), FindRate(rates, lines[k], yearMonth))
  {
    if k < |lines| - 1 { LineNumbers(lines[..|lines| - 1], prices, rates, yearMonth, k); }
  }

  // ---------------------------------------------------------------- sums

  datatype Column = PayableShipping | PayableFuel | ActualShipping | ActualFuel

  /** Null counts as zero in `_.sumBy`. */
  function Amount(d: Detail, column: Column): real {
    match column
    case PayableShipping => if d.payableShippingFee.Some? then d.payableShippingFee.value else 0.0
    case PayableFuel => if d.payableFuelFee.Some? then d.payableFuelFee.value else 0.0
    case ActualShipping => d.actualShippingFee
    case ActualFuel => d.actualFuelFee
  }

  function SumBy(ds: seq<Detail>, column: Column): real {
    if ds == [] then 0.0 else SumBy(ds[..|ds| - 1], column) + Amount(ds[|ds| - 1], column)
  }

  function OfAccounts(ds: seq<Detail>, accounts: set<string>): seq<Detail> {
    if ds == [] then []
    else OfAccounts(ds[..|ds| - 1], accounts) + if ds[|ds| - 1].account in accounts then [ds[|ds| - 1]] else []
  }

  datatype SummaryRow = SummaryRow(account: string, payableShipping: real, payableFuel: real, actualShipping: real,
                                   actualFuel: real)

  function SummaryAmount(r: SummaryRow, column: Column): real {
    match column
    case PayableShipping => r.payableShipping
    case PayableFuel => r.payableFuel
    case ActualShipping => r.actualShipping
    case ActualFuel => r.actualFuel
  }

  function SummarySum(rows: seq<SummaryRow>, column: Column): real {
    if rows == [] then 0.0 else SummarySum(rows[..|rows| - 1], column) + SummaryAmount(rows[|rows| - 1], column)
  }

  function SummaryOf(ds: seq<Detail>, account: string): SummaryRow {
    var mine := OfAccounts(ds, {account});
    SummaryRow(account, SumBy(mine, PayableShipping), SumBy(mine, PayableFuel), SumBy(mine, ActualShipping),
               SumBy(mine, ActualFuel))
  }

  /** A row of the summary starts at zero, and each line of its account adds its fees, null counting as zero. */
  lemma SummaryAdds(ds: seq<Detail>, d: Detail, account: string)
    ensures SummaryOf([], account) == SummaryRow(account, 0.0, 0.0, 0.0, 0.0)
    ensures d.account != account ==> SummaryOf(ds + [d], account) == SummaryOf(ds, account)
    ensures d.account == account ==>
              var r, r' := SummaryOf(ds, account), SummaryOf(ds + [d], account);
              && r'.account == account
              && (d.payableShippingFee == None ==> r'.payableShipping == r.payableShipping)
              && (d.payableShippingFee != None ==>
                    r'.payableShipping == r.payableShipping + d.payableShippingFee.value)
              && (d.payableFuelFee == None ==> r'.payableFuel == r.payableFuel)
              && (d.payableFuelFee != None ==> r'.payableFuel == r.payableFuel + d.payableFuelFee.value)
              && r'.actualShipping == r.actualShipping + d.actualShippingFee
              && r'.actualFuel == r.actualFuel + d.actualFuelFee
  {
    assert (ds + [d])[..|ds|] == ds;
    forall column: Column { SumAppend(OfAccounts(ds, {account}), d, column); }
  }

  lemma {:induction false} AccountsSplit(ds: seq<Detail>, accounts: set<string>, account: string, column: Column)
    requires account in accounts
    ensures SumBy(OfAccounts(ds, accounts), column) ==
            SumBy(OfAccounts(ds, {account}), column) + SumBy(OfAccounts(ds, accounts - {account}), column)
  {
    if ds != [] {
      var front, last := ds[..|ds| - 1], ds[|ds| - 1];
      AccountsSplit(front, accounts, account, column);
      SumAppend(OfAccounts(front, accounts), last, column);
      SumAppend(OfAccounts(front, {account}), last, column);
      SumAppend(OfAccounts(front, accounts - {account}), last, column);
    }
  }

  lemma SumAppend(ds: seq<Detail>, d: Detail, column: Column)
    ensures SumBy(ds + [d], column) == SumBy(ds, column) + Amount(d, column) && ds + [] == ds
  {
    assert (ds + [d])[..|ds + [d]| - 1] == ds;
  }

  lemma {:induction false} AllOrNoAccounts(ds: seq<Detail>, accounts: set<string>)
    ensures (forall d :: d in ds ==> d.account in accounts) ==> OfAccounts(ds, accounts) == ds
    ensures accounts == {} ==> OfAccounts(ds, accounts) == []
  {
    if ds != [] {
      AllOrNoAccounts(ds[..|ds| - 1], accounts);
      assert ds == ds[..|ds| - 1] + [ds[|ds| - 1]];
    }
  }

  predicate RowsOf(rows: seq<SummaryRow>, ds: seq<Detail>, done: set<string>) {
    && (forall r :: r in rows ==> r.account in done && r == SummaryOf(ds, r.account))
    && (forall i, j :: 0 <= i < j < |rows| ==> rows[i].account != rows[j].account)
    && forall a :: a in done ==> exists r :: r in rows && r.account == a
  }

  predicate SumsSplit(rows: seq<SummaryRow>, ds: seq<Detail>, todo: set<string>) {
    forall column: Column :: SummarySum(rows, column) + SumBy(OfAccounts(ds, todo), column) == SumBy(ds, column)
  }

  lemma RowsGrow(rows: seq<SummaryRow>, ds: seq<Detail>, done: set<string>, account: string)
    requires RowsOf(rows, ds, done) && account !in done
    ensures RowsOf(rows + [SummaryOf(ds, account)], ds, done + {account})
  {
    var row := SummaryOf(ds, account);
    forall a | a in done + {account} ensures exists r :: r in rows + [row] && r.account == a {
      if a == account { assert row in rows + [row]; }
      else {
        var r :| r in rows && r.account == a;
        assert r in rows + [row];
      }
    }
  }

  lemma SumsMove(rows: seq<SummaryRow>, ds: seq<Detail>, todo: set<string>, account: string)
    requires SumsSplit(rows, ds, todo) && account in todo
    ensures SumsSplit(rows + [SummaryOf(ds, account)], ds, todo - {account})
  {
    var row := SummaryOf(ds, account);
    forall column: Column
      ensures SummarySum(rows + [row], column) + SumBy(OfAccounts(ds, todo - {account}), column) == SumBy(ds, column)
    {
      AccountsSplit(ds, todo, account, column);
      assert (rows + [row])[..|rows + [row]| - 1] == rows;
      assert SummaryAmount(row, column) == SumBy(OfAccounts(ds, {account}), column);
    }
  }

  /** The grouping of `buildExcel`: one row per account, whose sums add up to the sums over all lines. */
  method BuildSummary(ds: seq<Detail>) returns (rows: seq<SummaryRow>)
    ensures RowsOf(rows, ds, set d | d in ds :: d.account)
    ensures forall column: Column :: SummarySum(rows, column) == SumBy(ds, column)
  {
    rows := [];
    var accounts := set d | d in ds :: d.account;
    var todo := accounts;
    SumsAtStart(ds, accounts);
    while todo != {}
      invariant todo <= accounts && RowsOf(rows, ds, accounts - todo) && SumsSplit(rows, ds, todo)
      decreases todo
    {
      var account :| account in todo;
      RowsGrow(rows, ds, accounts - todo, account);
      SumsMove(rows, ds, todo, account);
      assert accounts - (todo - {account}) == accounts - todo + {account};
      rows := rows + [SummaryOf(ds, account)];
      todo := todo - {account};
    }
    SumsAtEnd(rows, ds);
    assert accounts - todo == accounts;
  }

  lemma SumsAtStart(ds: seq<Detail>, accounts: set<string>)
    requires forall d :: d in ds ==> d.account in accounts
    ensures SumsSplit([], ds, accounts)
  {
    AllOrNoAccounts(ds, accounts);
  }

  lemma SumsAtEnd(rows: seq<SummaryRow>, ds: seq<Detail>)
    requires SumsSplit(rows, ds, {})
    ensures forall column: Column :: SummarySum(rows, column) == SumBy(ds, column)
  {
    AllOrNoAccounts(ds, {});
  }

  // ---------------------------------------------------------------- the total error

  /** The exact fuel fees of the lines that can be priced. */
  function ExactFuels(lines: seq<BillLine>, prices: seq<CostPrice>, rates: seq<FuelRate>, yearMonth: string): real {
    if lines == [] then 0.0
    else
      var n := |lines| - 1;
      ExactFuels(lines[..n], prices, rates, yearMonth)
      + ExactOrZero(lines[n], FindPrice(prices, lines[n]), FindRate(rates, lines[n], yearMonth))
  }

  predicate RatesAtMost(rates: seq<FuelRate>, max: real) { forall k :: 0 <= k < |rates| ==> Abs(rates[k].value) <= max }

  lemma {:induction false} FoundRateAtMost(rates: seq<FuelRate>, line: BillLine, yearMonth: string, max: real)
    requires RatesAtMost(rates, max) && FindRate(rates, line, yearMonth).Some?
    ensures Abs(FindRate(rates, line, yearMonth).value.value) <= max
  {
    if !RateFits(rates[0], line, yearMonth) {
      FoundRateAtMost(rates[1..], line, yearMonth, max);
    }
  }

  function ErrorBound(max: real): real { (1.0 + max / 100.0) * (UNIT / 2.0) }

  lemma RateScales(value: real, max: real)
    requires Abs(value) <= max
    ensures (1.0 + Abs(value / 100.0)) * (UNIT / 2.0) <= ErrorBound(max)
  {
  }

  function ExactOrZero(line: BillLine, price: Option<CostPrice>, rate: Option<FuelRate>): real {
    if price.Some? && rate.Some? then ExactFuel(line, price.value, rate.value) else 0.0
  }

  lemma LineErrorBound(line: BillLine, lineNumber: nat, prices: seq<CostPrice>, rates: seq<FuelRate>,
                       yearMonth: string, max: real)
    requires RatesAtMost(rates, max) && max >= 0.0
    ensures var price, rate := FindPrice(prices, line), FindRate(rates, line, yearMonth);
            Abs(Amount(BuildDetail(line, lineNumber, price, rate), PayableFuel) - ExactOrZero(line, price, rate))
              <= ErrorBound(max)
  {
    var price, rate := FindPrice(prices, line), FindRate(rates, line, yearMonth);
    if price.Some? && rate.Some? {
      FuelErrorBound(line, lineNumber, price.value, rate.value);
      FoundRateAtMost(rates, line, yearMonth, max);
      RateScales(rate.value.value, max);
    }
  }

  function Times(n: nat, bound: real): real { if n == 0 then 0.0 else Times(n - 1, bound) + bound }

  lemma {:induction false} TimesMultiplies(n: nat, bound: real)
    ensures Times(n, bound) == n as real * bound
  {
    if n > 0 {
      TimesMultiplies(n - 1, bound);
      assert n as real == (n - 1) as real + 1.0;
      Distribute((n - 1) as real, 1.0, bound);
    }
  }

  predicate SumsClose(n: nat, a: real, b: real, bound: real) { Abs(a - b) <= Times(n, bound) }

  lemma CloseMeans(n: nat, a: real, b: real, bound: real)
    requires SumsClose(n, a, b, bound)
    ensures Abs(a - b) <= Product(n as real, bound)
  {
    TimesMultiplies(n, bound);
  }

  lemma OneMore(n: nat, bound: real, a: real, b: real, x: real, y: real)
    requires SumsClose(n, a, b, bound) && Abs(x - y) <= bound
    ensures SumsClose(n + 1, a + x, b + y, bound)
  {
  }

  /** The sum over the first lines plus the last line. */
  lemma LastLine(lines: seq<BillLine>, prices: seq<CostPrice>, rates: seq<FuelRate>, yearMonth: string)
    requires lines != []
    ensures var n := |lines| - 1;
            var price, rate := FindPrice(prices, lines[n]), FindRate(rates, lines[n], yearMonth);
            && PayableFuels(lines, prices, rates, yearMonth)
               == PayableFuels(lines[..n], prices, rates, yearMonth)
                 + Amount(BuildDetail(lines[n], n + 1, price, rate), PayableFuel)
            && ExactFuels(lines, prices, rates, yearMonth)
               == ExactFuels(lines[..n], prices, rates, yearMonth) + ExactOrZero(lines[n], price, rate)
  {
    var n := |lines| - 1;
    SumAppend(BuildDetails(lines[..n], prices, rates, yearMonth),
              BuildDetail(lines[n], n + 1, FindPrice(prices, lines[n]), FindRate(rates, lines[n], yearMonth)),
              PayableFuel);
  }

  function PayableFuels(lines: seq<BillLine>, prices: seq<CostPrice>, rates: seq<FuelRate>, yearMonth: string): real {
    SumBy(BuildDetails(lines, prices, rates, yearMonth), PayableFuel)
  }

  lemma {:induction false} FuelSumsClose(
    lines: seq<BillLine>, prices: seq<CostPrice>, rates: seq<FuelRate>, yearMonth: string, max: real)
    requires RatesAtMost(rates, max) && max >= 0.0
    ensures SumsClose(|lines|, PayableFuels(lines, prices, rates, yearMonth),
                      ExactFuels(lines, prices, rates, yearMonth), ErrorBound(max))
  {
    if lines != [] {
      var n := |lines| - 1;
      var price, rate := FindPrice(prices, lines[n]), FindRate(rates, lines[n], yearMonth);
      FuelSumsClose(lines[..n], prices, rates, yearMonth, max);
      LineErrorBound(lines[n], n + 1, prices, rates, yearMonth, max);
      LastLine(lines, prices, rates, yearMonth);
      OneMore(n, ErrorBound(max), PayableFuels(lines[..n], prices, rates, yearMonth),
              ExactFuels(lines[..n], prices, rates, yearMonth),
              Amount(BuildDetail(lines[n], n + 1, price, rate), PayableFuel), ExactOrZero(lines[n], price, rate));
    } else {
      assert PayableFuels(lines, prices, rates, yearMonth) == 0.0;
    }
  }

  /** The total payable fuel fee is within n half-units times (1 + the highest rate) of the exact total. */
  lemma TotalFuelErrorBound(lines: seq<BillLine>, prices: seq<CostPrice>, rates: seq<FuelRate>, yearMonth: string,
                            max: real)
    requires RatesAtMost(rates, max) && max >= 0.0
    ensures Abs(SumBy(BuildDetails(lines, prices, rates, yearMonth), PayableFuel)
                - ExactFuels(lines, prices, rates, yearMonth))
            <= Product(|lines| as real, ErrorBound(max))
  {
    FuelSumsClose(lines, prices, rates, yearMonth, max);
    CloseMeans(|lines|, PayableFuels(lines, prices, rates, yearMonth), ExactFuels(lines, prices, rates, yearMonth),
               ErrorBound(max));
  }
}
