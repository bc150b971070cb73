/**
 * The gift valuation engine (app/api/assets/route.ts): the karat table, the historical price
 * lookups with their "exact day, else latest earlier day" fallback, and the per-type formulas
 * with their deliberately uneven failure policy.
 *
 * Money is an exact `real`; a calendar day is an `int` day number.
 */
module Valuation {
  import opened Wrappers
  import opened Types

  /** One row of a price table: the bid quoted on a calendar day. */
  datatype Quote = Quote(day: int, bid: real)

  /** A price table (quarter gold, gram gold, USD or EUR), in no particular order. */
  type PriceSeries = seq<Quote>

  /** The four price tables the engine reads. */
  datatype PriceTables = PriceTables(
    ceyrekGold: PriceSeries,
    gramGold: PriceSeries,
    usd: PriceSeries,
    eur: PriceSeries)

  /** The fixed prices used when no date is given or a rate lookup fails. */
  const MockTamAltin: real := 15000.0
  const MockResat: real := 19000.0
  const MockBesiBirYerde: real := 35000.0
  const MockTurkishLira: real := 1.0
  const MockDollar: real := 33.0
  const MockEuro: real := 36.0

  /** The exceptions that escape the valuation (the rate and Reşat/Cumhuriyet errors are caught). */
  datatype ValuationError =
    | CeyrekPriceNotFound   // "No gold price found for the given date or any previous date"
    | GramGoldPriceNotFound // "No gram gold price found for the given date or any previous date"

  /** What the caller hands to the engine. A missing `quantity` takes the parameter's default of 1. */
  datatype AssetInput = AssetInput(
    assetType: AssetType,
    quantity: Option<real>,
    grams: Option<real>,
    carat: Option<int>,
    dateReceived: Option<int>)

  // ---------------------------------------------------------------------------------------
  // Karat adjustment

  /** The share of the 24-karat value that gold of the given karat is worth. */
  function GoldValueByKarat(carat: int, baseValue: real): (r: real)
    ensures 0.0 <= baseValue ==> 0.0 <= r <= baseValue
    ensures carat == 24 || baseValue == 0.0 <==> r == baseValue
  {
    if carat == 24 then baseValue
    else if carat == 22 then baseValue * 0.92
    else if carat == 18 then baseValue * 0.75
    else if carat == 14 then baseValue * 0.58
    else baseValue * 0.75
  }

  /** The karat table, and the 18-karat default for every other value. */
  lemma KaratTable(baseValue: real)
    ensures GoldValueByKarat(24, baseValue) == baseValue
    ensures GoldValueByKarat(22, baseValue) == 0.92 * baseValue
    ensures GoldValueByKarat(18, baseValue) == 0.75 * baseValue
    ensures GoldValueByKarat(14, baseValue) == 0.58 * baseValue
    ensures forall c :: c != 24 && c != 22 && c != 18 && c != 14 ==>
      GoldValueByKarat(c, baseValue) == GoldValueByKarat(18, baseValue)
  {
  }

  // ---------------------------------------------------------------------------------------
  // Price lookup

  predicate HasQuoteOn(series: PriceSeries, day: int) {
    exists q :: q in series && q.day == day
  }

  predicate HasQuoteAtOrBefore(series: PriceSeries, day: int) {
    exists q :: q in series && q.day <= day
  }

  /** At most one quote per day, as the tables' date key guarantees. */
  predicate UniqueDays(series: PriceSeries) {
    forall i, j :: 0 <= i < |series| && 0 <= j < |series| && series[i].day == series[j].day ==> i == j
  }

  /** `q` is a quote of `series` on the latest quoted day not after `day`. */
  predicate IsLatestAtOrBefore(series: PriceSeries, day: int, q: Quote) {
    q in series && q.day <= day && forall q' :: q' in series && q'.day <= day ==> q'.day <= q.day
  }

  /** The query `findFirst({ where: { price_date: day } })`. */
  function QuoteOn(series: PriceSeries, day: int): (r: Option<real>)
    ensures r.Some? <==> HasQuoteOn(series, day)
    ensures r.Some? ==> Quote(day, r.value) in series
    decreases |series|
  {
    if series == [] then None
    else if series[0].day == day then Some(series[0].bid)
    else
      var r := QuoteOn(series[1..], day);
      assert forall q :: q in series[1..] ==> q in series;
      assert forall q :: q in series ==> q == series[0] || q in series[1..];
      r
  }

  /** The query `findFirst({ where: { price_date: { lte: day } }, orderBy: { price_date: 'desc' } })`. */
  function LatestQuoteAtOrBefore(series: PriceSeries, day: int): (r: Option<Quote>)
    ensures r.Some? <==> HasQuoteAtOrBefore(series, day)
    ensures r.Some? ==> IsLatestAtOrBefore(series, day, r.value)
    decreases |series|
  {
    if series == [] then None
    else
      var rest := LatestQuoteAtOrBefore(series[1..], day);
      assert forall q :: q in series[1..] ==> q in series;
      assert forall q :: q in series ==> q == series[0] || q in series[1..];
      if series[0].day > day then rest
      else if rest.Some? && rest.value.day > series[0].day then rest
      else Some(series[0])
  }

  /** The two-step lookup of the source: the exact day's quote, else the latest earlier one. */
  function FindPrice(series: PriceSeries, day: int): (r: Option<real>)
  {
    match QuoteOn(series, day)
    case Some(bid) => Some(bid)
    case None =>
      match LatestQuoteAtOrBefore(series, day)
      case Some(q) => Some(q.bid)
      case None => None
  }

  /**
   * The lookup fails exactly when nothing is quoted on or before the day; otherwise it returns
   * the bid of a quote on the latest quoted day not after it (never a later one), and the
   * exact day's quote when there is one.
   */
  lemma FindPriceSpec(series: PriceSeries, day: int)
    ensures FindPrice(series, day).None? <==> !HasQuoteAtOrBefore(series, day)
    ensures HasQuoteOn(series, day) ==>
      FindPrice(series, day).Some? && Quote(day, FindPrice(series, day).value) in series
    ensures FindPrice(series, day).Some? ==>
      exists q :: IsLatestAtOrBefore(series, day, q) && q.bid == FindPrice(series, day).value
  {
    var r := FindPrice(series, day);
    match QuoteOn(series, day)
    case Some(bid) =>
      var q := Quote(day, bid);
      assert IsLatestAtOrBefore(series, day, q);
    case None =>
      match LatestQuoteAtOrBefore(series, day)
      case Some(q) =>
        assert IsLatestAtOrBefore(series, day, q);
      case None =>
  }

  /** With one quote per day the exact-day query is redundant: both lookups give the same bid. */
  lemma {:induction false} FindPriceIsLatestQuote(series: PriceSeries, day: int)
    requires UniqueDays(series)
    ensures FindPrice(series, day) == LatestBid(series, day)
  {
    match QuoteOn(series, day)
    case Some(bid) =>
      var q := LatestQuoteAtOrBefore(series, day).value;
      assert Quote(day, bid) in series;
      assert q.day == day;
      var i :| 0 <= i < |series| && series[i] == Quote(day, bid);
      var j :| 0 <= j < |series| && series[j] == q;
      assert i == j;
    case None =>
  }

  /** The bid of the latest quote not after `day`, if any. */
  function LatestBid(series: PriceSeries, day: int): Option<real> {
    match LatestQuoteAtOrBefore(series, day)
    case Some(q) => Some(q.bid)
    case None => None
  }

  // ---------------------------------------------------------------------------------------
  // Valuation, stated per asset family

  /** JavaScript truthiness of an optional number: absent and zero are falsy. */
  predicate IsFalsy(x: Option<real>) {
    x.None? || x.value == 0.0
  }

  /** The `quantity` parameter after its default. */
  function QuantityOf(input: AssetInput): real {
    input.quantity.GetOr(1.0)
  }

  /** A coin worth `multiple` quarter-gold quotes, or `noDateValue` without a date. */
  function QuarterMultipleValue(multiple: real, noDateValue: real, prices: PriceTables, date: Option<int>)
    : Result<real, ValuationError>
  {
    match date
    case None => Success(noDateValue)
    case Some(d) =>
      match FindPrice(prices.ceyrekGold, d)
      case Some(p) => Success(multiple * p)
      case None => Failure(CeyrekPriceNotFound)
  }

  /** Gold by weight: grams times the karat-adjusted gram-gold quote. */
  function WeightedGoldValue(input: AssetInput, prices: PriceTables): Result<real, ValuationError> {
    if input.grams.None? || input.grams.value == 0.0 || input.carat.None? || input.carat.value == 0 then
      Success(0.0)
    else
      match input.dateReceived
      case None => Success(0.0)
      case Some(d) =>
        match FindPrice(prices.gramGold, d)
        case Some(p) => Success(input.grams.value * GoldValueByKarat(input.carat.value, p))
        case None => Failure(GramGoldPriceNotFound)
  }

  /** Foreign money: quantity times the rate of the day, or the fixed rate if none is quoted. */
  function ForeignCurrencyValue(input: AssetInput, series: PriceSeries, fallbackRate: real): Result<real, ValuationError> {
    if QuantityOf(input) == 0.0 || input.dateReceived.None? then
      Success(0.0)
    else
      match FindPrice(series, input.dateReceived.value)
      case Some(rate) => Success(QuantityOf(input) * rate)
      case None => Success(QuantityOf(input) * fallbackRate)
  }

  /** A coin priced as a fixed number of gram-gold quotes; any failure is swallowed into 0. */
  function GramMultipleValue(factor: real, prices: PriceTables, date: Option<int>): Result<real, ValuationError> {
    match date
    case None => Success(0.0)
    case Some(d) =>
      match LatestBid(prices.gramGold, d)
      case Some(p) => Success(p * factor)
      case None => Success(0.0)
  }

  /** The value of one asset, as a formula per type. */
  function AssetValue(input: AssetInput, prices: PriceTables): Result<real, ValuationError> {
    match input.assetType
    case CeyrekAltin => QuarterMultipleValue(1.0, 0.0, prices, input.dateReceived)
    case YarimAltin => QuarterMultipleValue(2.0, 0.0, prices, input.dateReceived)
    case TamAltin => QuarterMultipleValue(4.0, MockTamAltin, prices, input.dateReceived)
    case BesiBirYerde => QuarterMultipleValue(20.0, MockBesiBirYerde, prices, input.dateReceived)
    case Bilezik | GramGold => WeightedGoldValue(input, prices)
    case TurkishLira => Success(QuantityOf(input) * MockTurkishLira)
    case Dollar => ForeignCurrencyValue(input, prices.usd, MockDollar)
    case Euro => ForeignCurrencyValue(input, prices.eur, MockEuro)
    case ResatAltin => GramMultipleValue(6.60 * 1.025, prices, input.dateReceived)
    case CumhuriyetAltin => GramMultipleValue(6.614 * 1.045, prices, input.dateReceived)
    case GramAltin22K => Success(0.0)
  }

  // ---------------------------------------------------------------------------------------
  // The engine as the source runs it

  /** The quarter-gold helper: exact day, else latest earlier day, else throw. */
  method GetCeyrekAltinPrice(prices: PriceTables, date: int) returns (r: Result<real, ValuationError>)
    ensures r.Success? <==> HasQuoteAtOrBefore(prices.ceyrekGold, date)
    ensures r.Success? ==> Some(r.value) == FindPrice(prices.ceyrekGold, date)
    ensures r.Failure? ==> r.error == CeyrekPriceNotFound
  {
    var goldPrice := QuoteOn(prices.ceyrekGold, date);
    if goldPrice.None? {
      var latest := LatestQuoteAtOrBefore(prices.ceyrekGold, date);
      if latest.Some? {
        goldPrice := Some(latest.value.bid);
      }
    }
    if goldPrice.None? {
      return Failure(CeyrekPriceNotFound);
    }
    return Success(goldPrice.value);
  }

  /** The exchange-rate helper for the USD or EUR table: exact day, else latest earlier day. */
  method GetExchangeRate(series: PriceSeries, date: int) returns (r: Option<real>)
    ensures r.None? <==> !HasQuoteAtOrBefore(series, date)
    ensures r == FindPrice(series, date)
  {
    r := QuoteOn(series, date);
    if r.None? {
      var latest := LatestQuoteAtOrBefore(series, date);
      if latest.Some? {
        r := Some(latest.value.bid);
      }
    }
  }

  /**
   * `calculateAssetValue`: `unitValue` is set by the branch for the asset's type, with early
   * returns of 0 and the caught lookups of the source.
   */
  method CalculateAssetValue(input: AssetInput, prices: PriceTables) returns (r: Result<real, ValuationError>)
    ensures r == AssetValue(input, prices)
  {
    var quantity := QuantityOf(input);
    var grams := input.grams;
    var carat := input.carat;
    var dateReceived := input.dateReceived;
    var unitValue := 0.0;
    match input.assetType {
      case CeyrekAltin =>
        if dateReceived.Some? {
          var price := GetCeyrekAltinPrice(prices, dateReceived.value);
          if price.Failure? { return Failure(price.error); }
          unitValue := price.value;
        }
      case TamAltin =>
        if dateReceived.Some? {
          var ceyrekPrice := GetCeyrekAltinPrice(prices, dateReceived.value);
          if ceyrekPrice.Failure? { return Failure(ceyrekPrice.error); }
          unitValue := ceyrekPrice.value * 4.0;
        } else {
          unitValue := MockTamAltin;
        }
      case YarimAltin =>
        if dateReceived.Some? {
          var ceyrekPrice := GetCeyrekAltinPrice(prices, dateReceived.value);
          if ceyrekPrice.Failure? { return Failure(ceyrekPrice.error); }
          unitValue := ceyrekPrice.value * 2.0;
        }
      case BesiBirYerde =>
        if dateReceived.Some? {
          var ceyrekPrice := GetCeyrekAltinPrice(prices, dateReceived.value);
          if ceyrekPrice.Failure? { return Failure(ceyrekPrice.error); }
          unitValue := ceyrekPrice.value * 20.0;
        } else {
          unitValue := MockBesiBirYerde;
        }
      case Bilezik | GramGold =>
        if grams.None? || grams.value == 0.0 || carat.None? || carat.value == 0 {
          return Success(0.0);
        }
        if dateReceived.Some? {
          var goldPrice := QuoteOn(prices.gramGold, dateReceived.value);
          if goldPrice.None? {
            var latest := LatestQuoteAtOrBefore(prices.gramGold, dateReceived.value);
            if latest.Some? {
              goldPrice := Some(latest.value.bid);
            }
          }
          if goldPrice.None? {
            return Failure(GramGoldPriceNotFound);
          }
          var baseValue := goldPrice.value;
          unitValue := grams.value * GoldValueByKarat(carat.value, baseValue);
        }
        assert AssetValue(input, prices).Success? && AssetValue(input, prices).value == unitValue;
      case TurkishLira =>
        unitValue := quantity * MockTurkishLira;
      case Dollar =>
        if quantity == 0.0 || dateReceived.None? {
          return Success(0.0);
        }
        var exchangeRate := GetExchangeRate(prices.usd, dateReceived.value);
        if exchangeRate.Some? {
          unitValue := quantity * exchangeRate.value;
        } else {
          unitValue := quantity * MockDollar;
        }
        assert AssetValue(input, prices).Success? && AssetValue(input, prices).value == unitValue;
      case Euro =>
        if quantity == 0.0 || dateReceived.None? {
          return Success(0.0);
        }
        var exchangeRate := GetExchangeRate(prices.eur, dateReceived.value);
        if exchangeRate.Some? {
          unitValue := quantity * exchangeRate.value;
        } else {
          unitValue := quantity * MockEuro;
        }
        assert AssetValue(input, prices).Success? && AssetValue(input, prices).value == unitValue;
      case ResatAltin =>
        if dateReceived.None? {
          return Success(0.0);
        }
        var goldPrice := LatestQuoteAtOrBefore(prices.gramGold, dateReceived.value);
        if goldPrice.Some? {
          unitValue := goldPrice.value.bid * 6.60 * 1.025;
          assert unitValue == goldPrice.value.bid * (6.60 * 1.025);
        } else {
          unitValue := 0.0;
        }
      case CumhuriyetAltin =>
        if dateReceived.None? {
          return Success(0.0);
        }
        var goldPrice := LatestQuoteAtOrBefore(prices.gramGold, dateReceived.value);
        if goldPrice.Some? {
          unitValue := goldPrice.value.bid * 6.614 * 1.045;
          assert unitValue == goldPrice.value.bid * (6.614 * 1.045);
        } else {
          unitValue := 0.0;
        }
      case GramAltin22K =>
        unitValue := 0.0;
    }
    return Success(unitValue);
  }

  // ---------------------------------------------------------------------------------------
  // Properties of the valuation

  predicate IsQuarterCoin(t: AssetType) {
    t == CeyrekAltin || t == YarimAltin || t == TamAltin || t == BesiBirYerde
  }

  /**
   * With a date, the half, full and "beşi bir yerde" coins are worth 2, 4 and 20 quarter-gold
   * quotes of that same day, and all four coins fail together when no quote exists; quantity,
   * grams and carat play no part.
   */
  lemma QuarterCoinsScaleTheQuarterQuote(
    prices: PriceTables, d: int,
    q1: Option<real>, g1: Option<real>, c1: Option<int>,
    q2: Option<real>, g2: Option<real>, c2: Option<int>)
    ensures var quarter := AssetValue(AssetInput(CeyrekAltin, q1, g1, c1, Some(d)), prices);
      && (quarter.Success? <==> HasQuoteAtOrBefore(prices.ceyrekGold, d))
      && (quarter.Failure? ==> quarter.error == CeyrekPriceNotFound)
      && (quarter.Success? ==> Some(quarter.value) == FindPrice(prices.ceyrekGold, d))
      && AssetValue(AssetInput(YarimAltin, q2, g2, c2, Some(d)), prices)
         == (if quarter.Success? then Success(2.0 * quarter.value) else quarter)
      && AssetValue(AssetInput(TamAltin, q2, g2, c2, Some(d)), prices)
         == (if quarter.Success? then Success(4.0 * quarter.value) else quarter)
      && AssetValue(AssetInput(BesiBirYerde, q2, g2, c2, Some(d)), prices)
         == (if quarter.Success? then Success(20.0 * quarter.value) else quarter)
  {
    FindPriceSpec(prices.ceyrekGold, d);
  }

  /** Without a date, the full and "beşi bir yerde" coins take their fixed prices; every other
      date-dependent coin is worth 0. */
  lemma UndatedCoins(prices: PriceTables, q: Option<real>, g: Option<real>, c: Option<int>)
    ensures AssetValue(AssetInput(TamAltin, q, g, c, None), prices) == Success(15000.0)
    ensures AssetValue(AssetInput(BesiBirYerde, q, g, c, None), prices) == Success(35000.0)
    ensures AssetValue(AssetInput(CeyrekAltin, q, g, c, None), prices) == Success(0.0)
    ensures AssetValue(AssetInput(YarimAltin, q, g, c, None), prices) == Success(0.0)
    ensures AssetValue(AssetInput(ResatAltin, q, g, c, None), prices) == Success(0.0)
    ensures AssetValue(AssetInput(CumhuriyetAltin, q, g, c, None), prices) == Success(0.0)
  {
  }

  /** Bracelets and gram gold: 0 for missing weight or purity or date, an error without a
      quote, otherwise grams times the karat-adjusted gram-gold quote. */
  lemma WeighedGoldValue(input: AssetInput, prices: PriceTables)
    requires IsWeighedGold(input.assetType)
    ensures IsFalsy(input.grams) || input.carat.None? || input.carat.value == 0 || input.dateReceived.None?
      ==> AssetValue(input, prices) == Success(0.0)
    ensures !IsFalsy(input.grams) && input.carat.Some? && input.carat.value != 0 && input.dateReceived.Some? ==>
      var price := FindPrice(prices.gramGold, input.dateReceived.value);
      && (price.Some? ==>
            && AssetValue(input, prices).Success?
            && AssetValue(input, prices).value == input.grams.value * GoldValueByKarat(input.carat.value, price.value))
      && (price.None? ==> AssetValue(input, prices) == Failure(GramGoldPriceNotFound))
  {
  }

  /** Turkish lira is worth its quantity (1 when absent), needing no date and no table. */
  lemma TurkishLiraIsItsQuantity(input: AssetInput, prices: PriceTables)
    requires input.assetType == TurkishLira
    ensures AssetValue(input, prices) == Success(input.quantity.GetOr(1.0))
  {
  }

  /** Dollars and euros: 0 for a zero quantity or no date; otherwise quantity times the rate of
      the day, or times the fixed rate (33 or 36) when no rate is quoted. Never an error. */
  lemma ForeignCurrencyNeverFails(input: AssetInput, prices: PriceTables)
    requires input.assetType == Dollar || input.assetType == Euro
    ensures AssetValue(input, prices).Success?
    ensures QuantityOf(input) == 0.0 || input.dateReceived.None? ==> AssetValue(input, prices).value == 0.0
    ensures QuantityOf(input) != 0.0 && input.dateReceived.Some? ==>
      var series := if input.assetType == Dollar then prices.usd else prices.eur;
      var fallback := if input.assetType == Dollar then 33.0 else 36.0;
      AssetValue(input, prices).value ==
        QuantityOf(input) * FindPrice(series, input.dateReceived.value).GetOr(fallback)
  {
  }

  /** Reşat and Cumhuriyet coins: the latest gram-gold quote not after the day times 6.765 or
      6.91163 (6.60 × 1.025 and 6.614 × 1.045); 0 without a date or a quote; never an error. */
  lemma GramCoinsValue(input: AssetInput, prices: PriceTables)
    requires input.assetType == ResatAltin || input.assetType == CumhuriyetAltin
    ensures AssetValue(input, prices).Success?
    ensures input.dateReceived.None? ==> AssetValue(input, prices).value == 0.0
    ensures input.dateReceived.Some? ==>
      var factor := if input.assetType == ResatAltin then 6.765 else 6.91163;
      AssetValue(input, prices).value == LatestBid(prices.gramGold, input.dateReceived.value).GetOr(0.0) * factor
  {
  }

  /** The type with no branch of its own is worth 0. */
  lemma UnpricedTypeIsZero(input: AssetInput, prices: PriceTables)
    requires input.assetType == GramAltin22K
    ensures AssetValue(input, prices) == Success(0.0)
  {
  }

  /** A valuation fails only for a quarter-based coin or weighed gold with a date and no
      quote at or before it in the table that type reads. */
  lemma FailuresAreMissingQuotes(input: AssetInput, prices: PriceTables)
    ensures AssetValue(input, prices).Failure? <==>
      input.dateReceived.Some? &&
      ((IsQuarterCoin(input.assetType) && !HasQuoteAtOrBefore(prices.ceyrekGold, input.dateReceived.value))
       || (IsWeighedGold(input.assetType) && !IsFalsy(input.grams) && input.carat.Some? && input.carat.value != 0
           && !HasQuoteAtOrBefore(prices.gramGold, input.dateReceived.value)))
  {
    if input.dateReceived.Some? {
      if IsQuarterCoin(input.assetType) {
        FindPriceSpec(prices.ceyrekGold, input.dateReceived.value);
      } else if IsWeighedGold(input.assetType) {
        FindPriceSpec(prices.gramGold, input.dateReceived.value);
      }
    }
  }

  predicate NonNegativeBids(series: PriceSeries) {
    forall q :: q in series ==> 0.0 <= q.bid
  }

  /** With non-negative quotes, quantities and weights, a successful valuation is never negative. */
  lemma ValueIsNonNegative(input: AssetInput, prices: PriceTables)
    requires NonNegativeBids(prices.ceyrekGold) && NonNegativeBids(prices.gramGold)
    requires NonNegativeBids(prices.usd) && NonNegativeBids(prices.eur)
    requires 0.0 <= input.quantity.GetOr(1.0) && 0.0 <= input.grams.GetOr(0.0)
    ensures AssetValue(input, prices).Success? ==> 0.0 <= AssetValue(input, prices).value
  {
    match input.assetType
    case CeyrekAltin | YarimAltin | TamAltin | BesiBirYerde =>
      QuarterValueNonNegative(input, prices);
    case Bilezik | GramGold =>
      WeightedGoldNonNegative(input, prices);
    case Dollar =>
      ForeignCurrencyNonNegative(input, prices.usd, MockDollar);
    case Euro =>
      ForeignCurrencyNonNegative(input, prices.eur, MockEuro);
    case ResatAltin | CumhuriyetAltin | TurkishLira | GramAltin22K =>
  }

  /** A quarter-based coin is valued at a non-negative multiple of a non-negative quote. */
  lemma QuarterValueNonNegative(input: AssetInput, prices: PriceTables)
    requires IsQuarterCoin(input.assetType) && NonNegativeBids(prices.ceyrekGold)
    ensures AssetValue(input, prices).Success? ==> 0.0 <= AssetValue(input, prices).value
  {
    if input.dateReceived.Some? {
      FoundPriceNonNegative(prices.ceyrekGold, input.dateReceived.value);
    }
  }

  /** Weighed gold is a non-negative weight times a karat share of a non-negative quote. */
  lemma WeightedGoldNonNegative(input: AssetInput, prices: PriceTables)
    requires IsWeighedGold(input.assetType) && NonNegativeBids(prices.gramGold)
    requires 0.0 <= input.grams.GetOr(0.0)
    ensures AssetValue(input, prices).Success? ==> 0.0 <= AssetValue(input, prices).value
  {
    if input.dateReceived.Some? {
      FoundPriceNonNegative(prices.gramGold, input.dateReceived.value);
    }
  }

  /** Foreign money is a non-negative quantity times a non-negative rate, quoted or fixed. */
  lemma ForeignCurrencyNonNegative(input: AssetInput, series: PriceSeries, fallbackRate: real)
    requires NonNegativeBids(series) && 0.0 <= fallbackRate && 0.0 <= QuantityOf(input)
    ensures ForeignCurrencyValue(input, series, fallbackRate).Success?
      ==> 0.0 <= ForeignCurrencyValue(input, series, fallbackRate).value
  {
    if input.dateReceived.Some? {
      FoundPriceNonNegative(series, input.dateReceived.value);
    }
  }

  /** A price found in a table of non-negative quotes is non-negative. */
  lemma FoundPriceNonNegative(series: PriceSeries, day: int)
    requires NonNegativeBids(series)
    ensures FindPrice(series, day).Some? ==> 0.0 <= FindPrice(series, day).value
  {
    FindPriceSpec(series, day);
  }

  // ---------------------------------------------------------------------------------------
  // Worked examples

  /** A quarter coin quoted at 3000 on day 10 and nothing on day 11: a full coin received on
      day 11 is valued from day 10's quote, 4 × 3000. */
  lemma FullCoinFallsBackToPriorDay()
    ensures AssetValue(AssetInput(TamAltin, None, None, None, Some(11)),
                       PriceTables([Quote(9, 2900.0), Quote(10, 3000.0), Quote(12, 3100.0)], [], [], []))
            == Success(12000.0)
  {
    var series := [Quote(9, 2900.0), Quote(10, 3000.0), Quote(12, 3100.0)];
    assert QuoteOn(series, 11) == None;
    assert LatestQuoteAtOrBefore(series, 11) == Some(Quote(10, 3000.0));
  }

  /** A 10 g, 22-karat bracelet with gram gold at 2200: 10 × 2200 × 0.92 = 20240. */
  lemma BraceletOfTenGrams()
    ensures AssetValue(AssetInput(Bilezik, None, Some(10.0), Some(22), Some(5)),
                       PriceTables([], [Quote(5, 2200.0)], [], []))
            == Success(20240.0)
  {
  }

  /** A bracelet with a weight but no karat is worth 0. */
  lemma BraceletWithoutKarat()
    ensures AssetValue(AssetInput(Bilezik, None, Some(10.0), None, Some(5)),
                       PriceTables([], [Quote(5, 2200.0)], [], []))
            == Success(0.0)
  {
  }

  /** 100 dollars with no USD rate on or before the day: valued at the fixed rate 33, not rejected. */
  lemma DollarsWithoutRateUseFixedRate()
    ensures AssetValue(AssetInput(Dollar, Some(100.0), None, None, Some(5)),
                       PriceTables([], [], [Quote(6, 35.0)], []))
            == Success(3300.0)
  {
    assert LatestQuoteAtOrBefore([Quote(6, 35.0)], 5) == None;
  }
}
