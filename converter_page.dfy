/** The Converter page: the popular pairs' rates and the two crypto prices. */
module ConverterPage {
  import opened CurrencyConverterWidget
  import opened MockData

  /** `getRate(from, to) = (1 / fromRate) * toRate`, with the same missing-or-zero
      fallback to 1 as the widget. */
  function GetRate(rates: map<string, real>, from: string, to: string): (r: real)
    ensures r * RateOf(rates, from) == RateOf(rates, to)
    ensures r != 0.0
  {
    (1.0 / RateOf(rates, from)) * RateOf(rates, to)
  }

  /** The page's rate is the widget's rate for one unit. */
  lemma GetRateIsWidgetRate(rates: map<string, real>, from: string, to: string)
    ensures GetRate(rates, from, to) == Convert(rates, 1.0, from, to)
  {
  }

  /** A currency against itself is at par. */
  lemma GetRateSame(rates: map<string, real>, code: string)
    ensures GetRate(rates, code, code) == 1.0
  {
  }

  /** The two directions of a pair are reciprocal. */
  lemma GetRateReciprocal(rates: map<string, real>, a: string, b: string)
    ensures GetRate(rates, a, b) * GetRate(rates, b, a) == 1.0
  {
    var ra, rb := RateOf(rates, a), RateOf(rates, b);
    assert (1.0 / ra) * rb * ((1.0 / rb) * ra) == (ra / ra) * (rb / rb);
  }

  /** A crypto price in dollars, `1 / (exchangeRates[code] || fallback)`. */
  function CryptoPrice(rates: map<string, real>, code: string, fallback: real): (price: real)
    requires fallback != 0.0
    ensures code in rates && rates[code] != 0.0 ==> price * rates[code] == 1.0
    ensures code !in rates || rates[code] == 0.0 ==> price * fallback == 1.0
  {
    var r := if code in rates && rates[code] != 0.0 then rates[code] else fallback;
    1.0 / r
  }

  /** The Bitcoin price, with the fallback rate 0.000024. */
  function BitcoinPrice(rates: map<string, real>): real
  {
    CryptoPrice(rates, "BTC", 0.000024)
  }

  /** The Ether price, with the fallback rate 0.00041. */
  function EtherPrice(rates: map<string, real>): real
  {
    CryptoPrice(rates, "ETH", 0.00041)
  }

  /** With the seed table the prices come from its rates: 1 / 0.000024 for
      Bitcoin and 1 / 0.00042 for Ether; without an entry, the fallbacks
      apply, and for Ether the fallback is not the seed's rate. */
  lemma CryptoPrices()
    ensures BitcoinPrice(ExchangeRates) == 1.0 / 0.000024
    ensures EtherPrice(ExchangeRates) == 1.0 / 0.00042
    ensures BitcoinPrice(map[]) == BitcoinPrice(ExchangeRates)
    ensures EtherPrice(map[]) == 1.0 / 0.00041 != EtherPrice(ExchangeRates)
  {
  }
}
