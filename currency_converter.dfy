/** The currency converter widget: conversion through rates against the US
    dollar, the swap button, the favourite pairs and the digit count used to
    show a result. Rates come from a table such as the seed `ExchangeRates`. */
module CurrencyConverterWidget {
  import opened Common
  import opened MockData

  /** `exchangeRates[code] || 1`: a missing or zero rate reads as 1. */
  function RateOf(rates: map<string, real>, code: string): (r: real)
    ensures r != 0.0
    ensures code in rates && rates[code] != 0.0 ==> r == rates[code]
    ensures code !in rates || rates[code] == 0.0 ==> r == 1.0
  {
    if code in rates && rates[code] != 0.0 then rates[code] else 1.0
  }

  /** `convert(value, from, to) = value / fromRate * toRate`. */
  function Convert(rates: map<string, real>, value: real, from: string, to: string): real
  {
    value / RateOf(rates, from) * RateOf(rates, to)
  }

  /** The conversion follows the rule above whatever the table holds: the
      value is divided by the source rate and multiplied by the target rate. */
  lemma ConvertMeaning(rates: map<string, real>, value: real, from: string, to: string)
    ensures Convert(rates, value, from, to) * RateOf(rates, from) == value * RateOf(rates, to)
  {
  }

  /** Converting a currency to itself changes nothing. */
  lemma ConvertSame(rates: map<string, real>, value: real, code: string)
    ensures Convert(rates, value, code, code) == value
  {
  }

  /** Converting there and back gives the starting value. */
  lemma ConvertRoundTrip(rates: map<string, real>, value: real, from: string, to: string)
    ensures Convert(rates, Convert(rates, value, from, to), to, from) == value
  {
    var a, b := RateOf(rates, from), RateOf(rates, to);
    assert value / a * b / b * a == value;
  }

  /** The converted amount is the amount times the displayed rate,
      `rate = convert(1, from, to)`. */
  lemma ConvertIsAmountTimesRate(rates: map<string, real>, value: real, from: string, to: string)
    ensures Convert(rates, value, from, to) == value * Convert(rates, 1.0, from, to)
  {
  }

  /** `parseFloat(amount) || 0`: the typed amount, where `None` stands for text
      that does not parse. */
  function AmountOrZero(parsed: Option<real>): (v: real)
    ensures parsed.None? ==> v == 0.0
    ensures parsed.Some? ==> v == parsed.value
  {
    match parsed
    case None => 0.0
    case Some(x) => x
  }

  /** `currentPair`, the favourites key of a pair, `FROM-TO`. */
  function PairKey(from: string, to: string): (key: string)
    ensures |key| == |from| + |to| + 1 && key[|from|] == '-'
    ensures key[..|from|] == from && key[|from| + 1..] == to
  {
    from + "-" + to
  }

  /** The favourites list after `toggleFavorite(pair)`: a listed pair is
      filtered out, every copy of it; an unlisted one is appended. */
  function ToggledFavorites(favorites: seq<string>, pair: string): (r: seq<string>)
    ensures pair in r <==> pair !in favorites
    ensures forall p :: p != pair ==> (p in r <==> p in favorites)
    ensures pair !in favorites ==> r == favorites + [pair]
    ensures pair in favorites ==> IsSubsequence(r, favorites) && |r| < |favorites|
  {
    if pair in favorites then
      var r := Filter(favorites, (p: string) => p != pair);
      FilterIsSubsequence(favorites, (p: string) => p != pair);
      forall p ensures p in r <==> p in favorites && p != pair {
        FilterMembership(favorites, (p: string) => p != pair, p);
      }
      FilterDropsOne(favorites, (p: string) => p != pair, pair);
      r
    else
      favorites + [pair]
  }

  /** Filtering out a present element shortens the list. */
  lemma {:induction false} FilterDropsOne(s: seq<string>, p: string -> bool, x: string)
    requires x in s && !p(x)
    ensures |Filter(s, p)| < |s|
    decreases |s|
  {
    if s[0] == x {
      assert Filter(s, p) == Filter(s[1..], p);
    } else {
      assert x in s[1..];
      FilterDropsOne(s[1..], p, x);
    }
  }

  /** Toggling a pair that was not a favourite twice gives back the list. */
  lemma ToggleTwiceAbsent(favorites: seq<string>, pair: string)
    requires pair !in favorites
    ensures ToggledFavorites(ToggledFavorites(favorites, pair), pair) == favorites
  {
    var added := favorites + [pair];
    assert Filter(added, (p: string) => p != pair) == Filter(favorites, (p: string) => p != pair) by {
      FilterAppend(favorites, [pair], (p: string) => p != pair);
      assert Filter([pair], (p: string) => p != pair) == [] by {
        assert [pair][..0] == [];
      }
    }
    FilterKeepsAll(favorites, (p: string) => p != pair);
  }

  /** `formatNumber`'s digit count: eight for the crypto currencies, two otherwise. */
  function FractionDigits(currency: string): (digits: nat)
    ensures digits == 8 <==> currency == "BTC" || currency == "ETH"
    ensures digits == 2 <==> currency != "BTC" && currency != "ETH"
  {
    if currency in ["BTC", "ETH"] then 8 else 2
  }

  /** The widget's state: the typed amount, the two currencies and the
      favourite pairs. */
  class Converter {
    var amount: Option<real>
    var fromCurrency: string
    var toCurrency: string
    var favorites: seq<string>

    /** The initial state: 1000 from USD to EUR, with two favourites. */
    constructor()
      ensures amount == Some(1000.0) && fromCurrency == "USD" && toCurrency == "EUR"
      ensures favorites == ["USD-EUR", "USD-GBP"]
    {
      amount := Some(1000.0);
      fromCurrency := "USD";
      toCurrency := "EUR";
      favorites := ["USD-EUR", "USD-GBP"];
    }

    /** `rate`: what one unit of the source currency buys. */
    function Rate(): (r: real)
      reads this
      ensures r * RateOf(ExchangeRates, fromCurrency) == RateOf(ExchangeRates, toCurrency)
    {
      ConvertMeaning(ExchangeRates, 1.0, fromCurrency, toCurrency);
      Convert(ExchangeRates, 1.0, fromCurrency, toCurrency)
    }

    /** `convertedAmount`: the typed amount (0 when it does not parse) at that rate. */
    function ConvertedAmount(): (v: real)
      reads this
      ensures v == AmountOrZero(amount) * Rate()
      ensures fromCurrency == toCurrency ==> v == AmountOrZero(amount)
    {
      ConvertIsAmountTimesRate(ExchangeRates, AmountOrZero(amount), fromCurrency, toCurrency);
      ConvertSame(ExchangeRates, AmountOrZero(amount), fromCurrency);
      Convert(ExchangeRates, AmountOrZero(amount), fromCurrency, toCurrency)
    }

    /** Whether the star is lit. */
    predicate IsFavorite()
      reads this
    {
      PairKey(fromCurrency, toCurrency) in favorites
    }

    /** `swapCurrencies`. */
    method Swap()
      modifies this
      ensures fromCurrency == old(toCurrency) && toCurrency == old(fromCurrency)
      ensures amount == old(amount) && favorites == old(favorites)
    {
      fromCurrency, toCurrency := toCurrency, fromCurrency;
    }

    /** `toggleFavorite(pair)`. */
    method ToggleFavorite(pair: string)
      modifies this
      ensures favorites == ToggledFavorites(old(favorites), pair)
      ensures pair in favorites <==> pair !in old(favorites)
      ensures amount == old(amount) && fromCurrency == old(fromCurrency) && toCurrency == old(toCurrency)
    {
      favorites := ToggledFavorites(favorites, pair);
    }

    /** The star button: toggle the current pair, which flips the star. */
    method ToggleCurrentPair()
      modifies this
      ensures favorites == ToggledFavorites(old(favorites), PairKey(fromCurrency, toCurrency))
      ensures IsFavorite() <==> !old(IsFavorite())
      ensures amount == old(amount) && fromCurrency == old(fromCurrency) && toCurrency == old(toCurrency)
    {
      ToggleFavorite(PairKey(fromCurrency, toCurrency));
    }
  }

  /** Swapping twice restores both currencies and the shown amount. */
  method SwapTwice(c: Converter)
    modifies c
    ensures c.fromCurrency == old(c.fromCurrency) && c.toCurrency == old(c.toCurrency)
    ensures c.ConvertedAmount() == old(c.ConvertedAmount())
  {
    c.Swap();
    c.Swap();
  }

  /** With the seed rates, 1000 USD shows as 920 EUR, and a swap turns the
      pair around so that 1000 EUR buys 1000 / 0.92 dollars. */
  lemma SeedConversion()
    ensures Convert(ExchangeRates, 1000.0, "USD", "EUR") == 920.0
    ensures Convert(ExchangeRates, 1000.0, "EUR", "USD") == 1000.0 / 0.92
    ensures Convert(ExchangeRates, 1.0, "USD", "XYZ") == 1.0
  {
  }
}
