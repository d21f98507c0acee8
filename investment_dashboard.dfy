/** The portfolio widget: investments grouped by type for the pie chart (a
    reduce whose accumulator is searched with `find`, then either updated in
    place or pushed onto), the total value, each slice's share and the top
    four holdings. */
module InvestmentDashboardWidget {
  import opened Common
  import opened MockData

  /** One pie slice: a type, the summed value, the colour of its first holding. */
  datatype Slice = Slice(kind: InvestmentType, value: real, color: string)

  /** `acc.find(item => item.type === type)` as an index, -1 when absent. */
  function FindKind(acc: seq<Slice>, kind: InvestmentType): (r: int)
    ensures -1 <= r < |acc|
    ensures r >= 0 ==> acc[r].kind == kind && forall j :: 0 <= j < r ==> acc[j].kind != kind
    ensures r == -1 <==> forall j :: 0 <= j < |acc| ==> acc[j].kind != kind
    decreases |acc|
  {
    if |acc| == 0 then -1
    else if acc[0].kind == kind then 0
    else
      var r := FindKind(acc[1..], kind);
      if r == -1 then -1 else r + 1
  }

  /** One step of the reduce: add to the slice of the same type, or push a new one. */
  function GroupStep(acc: seq<Slice>, inv: Investment): seq<Slice>
  {
    var j := FindKind(acc, inv.kind);
    if j >= 0 then acc[j := acc[j].(value := acc[j].value + inv.value)]
    else acc + [Slice(inv.kind, inv.value, inv.color)]
  }

  /** `portfolioData`: the reduce over the investments in order, from `[]`. */
  function Group(invs: seq<Investment>): seq<Slice>
    decreases |invs|
  {
    if |invs| == 0 then [] else GroupStep(Group(invs[..|invs| - 1]), invs[|invs| - 1])
  }

  /** The reduce as the component runs it: a loop over the investments with a
      linear search of the accumulator, then an update or a push. */
  method PortfolioData(invs: seq<Investment>) returns (acc: seq<Slice>)
    ensures acc == Group(invs)
  {
    acc := [];
    var i := 0;
    while i < |invs|
      invariant 0 <= i <= |invs|
      invariant acc == Group(invs[..i])
    {
      var inv := invs[i];
      var j := 0;
      while j < |acc| && acc[j].kind != inv.kind
        invariant 0 <= j <= |acc|
        invariant forall k :: 0 <= k < j ==> acc[k].kind != inv.kind
      {
        j := j + 1;
      }
      if j < |acc| {
        acc := acc[j := acc[j].(value := acc[j].value + inv.value)];
      } else {
        acc := acc + [Slice(inv.kind, inv.value, inv.color)];
      }
      assert invs[..i + 1][..i] == invs[..i];
      i := i + 1;
    }
    assert invs[..i] == invs;
  }

  /** The position of the first investment of a type (`|invs|` when there is none). */
  function FirstIndex(invs: seq<Investment>, kind: InvestmentType): (r: int)
    ensures 0 <= r <= |invs|
    ensures r < |invs| ==> invs[r].kind == kind
    ensures forall i :: 0 <= i < r ==> invs[i].kind != kind
    ensures r == |invs| <==> forall i :: 0 <= i < |invs| ==> invs[i].kind != kind
    decreases |invs|
  {
    if |invs| == 0 then 0
    else
      var n := |invs| - 1;
      var r := FirstIndex(invs[..n], kind);
      if r < n then r else if invs[n].kind == kind then n else n + 1
  }

  /** The value of all investments of one type. */
  function TypeTotal(invs: seq<Investment>, kind: InvestmentType): real
  {
    Sum(invs, (inv: Investment) => if inv.kind == kind then inv.value else 0.0)
  }

  /** `totalValue`: the sum of all values. */
  function TotalValue(invs: seq<Investment>): real
  {
    Sum(invs, (inv: Investment) => inv.value)
  }

  /** The types of the slices, in order. */
  function Kinds(g: seq<Slice>): (ks: seq<InvestmentType>)
    ensures |ks| == |g| && forall j :: 0 <= j < |g| ==> ks[j] == g[j].kind
  {
    seq(|g|, j requires 0 <= j < |g| => g[j].kind)
  }

  /** A step keeps the types of the slices, adding the new type at the end
      when the search found none. */
  lemma StepKinds(prev: seq<Slice>, x: Investment)
    ensures FindKind(prev, x.kind) >= 0 <==> x.kind in Kinds(prev)
    ensures FindKind(prev, x.kind) >= 0 ==> Kinds(GroupStep(prev, x)) == Kinds(prev)
    ensures FindKind(prev, x.kind) < 0 ==> Kinds(GroupStep(prev, x)) == Kinds(prev) + [x.kind]
  {
    if FindKind(prev, x.kind) < 0 {
      assert x.kind !in Kinds(prev);
    }
  }

  /** The slices have distinct types, one for each type present: a type has a
      slice exactly when some investment has it. */
  lemma {:induction false} GroupOnePerType(invs: seq<Investment>)
    ensures forall a, b :: 0 <= a < b < |Group(invs)| ==> Group(invs)[a].kind != Group(invs)[b].kind
    ensures forall k :: k in Kinds(Group(invs)) <==> FirstIndex(invs, k) < |invs|
    decreases |invs|
  {
    if |invs| > 0 {
      var n := |invs| - 1;
      var prev := Group(invs[..n]);
      var x := invs[n];
      GroupOnePerType(invs[..n]);
      StepKinds(prev, x);
      var ks := Kinds(Group(invs));
      assert Group(invs) == GroupStep(prev, x);
      forall k
        ensures k in ks <==> FirstIndex(invs, k) < |invs|
      {
        assert FirstIndex(invs, k) < |invs| <==> FirstIndex(invs[..n], k) < n || x.kind == k;
      }
      forall a, b | 0 <= a < b < |ks|
        ensures ks[a] != ks[b]
      {
        assert ks[a] == Group(invs)[a].kind;
        if b < |prev| {
          assert ks[a] == Kinds(prev)[a] && ks[b] == Kinds(prev)[b];
        } else {
          assert ks[a] == Kinds(prev)[a];
        }
      }
    }
  }

  /** The last investment's share of a type total. */
  lemma TypeTotalSnoc(invs: seq<Investment>, kind: InvestmentType)
    requires |invs| > 0
    ensures TypeTotal(invs, kind) == TypeTotal(invs[..|invs| - 1], kind)
      + (if invs[|invs| - 1].kind == kind then invs[|invs| - 1].value else 0.0)
  {
  }

  /** A type no investment has totals zero. */
  lemma {:induction false} TypeTotalAbsent(invs: seq<Investment>, kind: InvestmentType)
    requires forall i :: 0 <= i < |invs| ==> invs[i].kind != kind
    ensures TypeTotal(invs, kind) == 0.0
    decreases |invs|
  {
    if |invs| > 0 {
      TypeTotalAbsent(invs[..|invs| - 1], kind);
      TypeTotalSnoc(invs, kind);
    }
  }

  /** Each slice's value is the total of its type, and its colour is that of the
      first investment of the type. */
  lemma {:induction false} GroupValuesAndColors(invs: seq<Investment>)
    ensures forall j :: 0 <= j < |Group(invs)| ==>
      && Group(invs)[j].value == TypeTotal(invs, Group(invs)[j].kind)
      && FirstIndex(invs, Group(invs)[j].kind) < |invs|
      && Group(invs)[j].color == invs[FirstIndex(invs, Group(invs)[j].kind)].color
    decreases |invs|
  {
    if |invs| > 0 {
      var n := |invs| - 1;
      var prev := Group(invs[..n]);
      var x := invs[n];
      GroupValuesAndColors(invs[..n]);
      GroupOnePerType(invs[..n]);
      StepKinds(prev, x);
      var g := Group(invs);
      assert g == GroupStep(prev, x);
      var found := FindKind(prev, x.kind);
      forall j | 0 <= j < |g|
        ensures g[j].value == TypeTotal(invs, g[j].kind)
        ensures FirstIndex(invs, g[j].kind) < |invs|
        ensures g[j].color == invs[FirstIndex(invs, g[j].kind)].color
      {
        var k := g[j].kind;
        TypeTotalSnoc(invs, k);
        if j < |prev| {
          assert k == prev[j].kind && g[j].color == prev[j].color;
          assert FirstIndex(invs[..n], k) < n;
          assert FirstIndex(invs, k) == FirstIndex(invs[..n], k);
          if j == found {
            assert g[j].value == prev[j].value + x.value;
          } else {
            assert g[j].value == prev[j].value;
            if found >= 0 {
              assert prev[found].kind == x.kind;
            }
            assert k != x.kind;
          }
        } else {
          assert found < 0 && g[j] == Slice(x.kind, x.value, x.color);
          assert x.kind !in Kinds(prev);
          assert FirstIndex(invs[..n], x.kind) == n;
          TypeTotalAbsent(invs[..n], x.kind);
          assert FirstIndex(invs, x.kind) == n;
        }
      }
    }
  }

  /** The slices come in order of each type's first appearance. */
  lemma {:induction false} GroupFirstAppearanceOrder(invs: seq<Investment>)
    ensures forall a, b :: 0 <= a < b < |Group(invs)| ==>
      FirstIndex(invs, Group(invs)[a].kind) < FirstIndex(invs, Group(invs)[b].kind)
    decreases |invs|
  {
    if |invs| > 0 {
      var n := |invs| - 1;
      var prev := Group(invs[..n]);
      var x := invs[n];
      GroupFirstAppearanceOrder(invs[..n]);
      GroupOnePerType(invs[..n]);
      StepKinds(prev, x);
      var g := Group(invs);
      assert g == GroupStep(prev, x);
      forall a, b | 0 <= a < b < |g|
        ensures FirstIndex(invs, g[a].kind) < FirstIndex(invs, g[b].kind)
      {
        assert g[a].kind == Kinds(prev)[a] == prev[a].kind;
        assert FirstIndex(invs[..n], g[a].kind) < n;
        assert FirstIndex(invs, g[a].kind) == FirstIndex(invs[..n], g[a].kind);
        if b < |prev| {
          assert g[b].kind == Kinds(prev)[b] == prev[b].kind;
          assert FirstIndex(invs[..n], g[b].kind) < n;
          assert FirstIndex(invs, g[b].kind) == FirstIndex(invs[..n], g[b].kind);
        } else {
          assert g[b].kind == x.kind && x.kind !in Kinds(prev);
          assert FirstIndex(invs[..n], x.kind) == n;
          assert FirstIndex(invs, x.kind) == n;
        }
      }
    }
  }

  /** The slices add up to the total value. */
  lemma {:induction false} GroupSumIsTotal(invs: seq<Investment>)
    ensures Sum(Group(invs), (s: Slice) => s.value) == TotalValue(invs)
    decreases |invs|
  {
    if |invs| > 0 {
      var n := |invs| - 1;
      var prev := Group(invs[..n]);
      var x := invs[n];
      var value := (s: Slice) => s.value;
      GroupSumIsTotal(invs[..n]);
      assert Group(invs) == GroupStep(prev, x);
      assert TotalValue(invs) == TotalValue(invs[..n]) + x.value;
      var j := FindKind(prev, x.kind);
      if j >= 0 {
        var updated := prev[j].(value := prev[j].value + x.value);
        assert GroupStep(prev, x) == prev[j := updated];
        SumUpdate(prev, j, updated, value);
      } else {
        var pushed := Slice(x.kind, x.value, x.color);
        assert GroupStep(prev, x) == prev + [pushed];
        assert (prev + [pushed])[..|prev|] == prev;
      }
    }
  }

  /** The tooltip's share of a slice, `value / totalValue * 100`. */
  function Share(s: Slice, total: real): Num
  {
    Percent(s.value, total)
  }

  /** For a positive total the shares of all slices add up to 100. */
  lemma SharesSumTo100(invs: seq<Investment>, total: real)
    requires total == TotalValue(invs) && total > 0.0
    ensures Sum(Group(invs), (s: Slice) => Share(s, total).v) == 100.0
  {
    GroupSumIsTotal(invs);
    SharesOfSlices(Group(invs), total);
  }

  /** Slices whose values add up to a non-zero total have shares adding up to 100. */
  lemma SharesOfSlices(g: seq<Slice>, total: real)
    requires total != 0.0 && Sum(g, (s: Slice) => s.value) == total
    ensures Sum(g, (s: Slice) => Share(s, total).v) == 100.0
  {
    forall s: Slice
      ensures Share(s, total).v == 100.0 / total * s.value
    {
      ScaledShare(s.value, total);
    }
    SumScale(g, (s: Slice) => s.value, 100.0 / total, (s: Slice) => Share(s, total).v);
    ScaledShare(total, total);
  }

  /** `v / t * 100` is `v` scaled by `100 / t`; for `v = t` that is 100. */
  lemma ScaledShare(v: real, t: real)
    requires t != 0.0
    ensures v / t * 100.0 == 100.0 / t * v
    ensures 100.0 / t * t == 100.0
  {
  }

  /** The top holdings: `investments.slice(0, 4)`. */
  function TopHoldings(invs: seq<Investment>): (top: seq<Investment>)
    ensures |top| == (if |invs| < 4 then |invs| else 4)
    ensures top <= invs
  {
    SliceTo(invs, 4)
  }

  /** The seed portfolio has four slices (stock, crypto, ETF, bond), crypto
      holding Bitcoin and Ethereum together in Bitcoin's colour, and is worth
      45230 in all. */
  lemma SeedPortfolio()
    ensures Group(Investments) == [
      Slice(Stock, 12500.0, "#A3AAAE"),
      Slice(CryptoAsset, 12700.0, "#F7931A"),
      Slice(Etf, 15000.0, "#3B82F6"),
      Slice(Bond, 5030.0, "#10B981")]
    ensures TotalValue(Investments) == 45230.0
  {
    SeedGroups();
    SeedTotal();
  }

  /** The grouping of the seed, one investment at a time. */
  lemma SeedGroups()
    ensures Group(Investments) == [
      Slice(Stock, 12500.0, "#A3AAAE"),
      Slice(CryptoAsset, 12700.0, "#F7931A"),
      Slice(Etf, 15000.0, "#3B82F6"),
      Slice(Bond, 5030.0, "#10B981")]
  {
    var s := Investments;
    assert s[..5][..4] == s[..4] && s[..4][..3] == s[..3] && s[..3][..2] == s[..2];
    assert s[..2][..1] == s[..1] && s[..1][..0] == [] && s[..5] == s;
    assert Group(s[..1]) == [Slice(Stock, 12500.0, "#A3AAAE")];
    assert Group(s[..2]) == [Slice(Stock, 12500.0, "#A3AAAE"), Slice(CryptoAsset, 8200.0, "#F7931A")];
    assert Group(s[..3]) == [Slice(Stock, 12500.0, "#A3AAAE"), Slice(CryptoAsset, 8200.0, "#F7931A"),
                             Slice(Etf, 15000.0, "#3B82F6")];
    var three := Group(s[..3]);
    assert three[1..][0].kind == CryptoAsset;
    assert FindKind(three, CryptoAsset) == 1;
    assert Group(s[..4]) == [Slice(Stock, 12500.0, "#A3AAAE"), Slice(CryptoAsset, 12700.0, "#F7931A"),
                             Slice(Etf, 15000.0, "#3B82F6")];
  }

  /** The seed's total value, one investment at a time. */
  lemma SeedTotal()
    ensures TotalValue(Investments) == 45230.0
  {
    var s := Investments;
    assert s[..5][..4] == s[..4] && s[..4][..3] == s[..3] && s[..3][..2] == s[..2];
    assert s[..2][..1] == s[..1] && s[..1][..0] == [] && s[..5] == s;
    var f := (inv: Investment) => inv.value;
    assert Sum(s[..1], f) == 12500.0 && Sum(s[..2], f) == 20700.0;
    assert Sum(s[..3], f) == 35700.0 && Sum(s[..4], f) == 40200.0;
  }
}
