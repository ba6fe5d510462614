/**
 * The valuation of a list of line items against the price table: the USD total
 * as the filtered sum of amount times price, and the ILS figure at a fixed rate.
 */
module Valuation {
  import opened Coins

  /** The value of one line item: the amount text as typed and the selected ticker ("" when none). */
  datatype Line = Line(amount: string, crypto: string)

  /** A freshly added line item: no amount, no coin. */
  const Blank: Line := Line("", "")

  /** The displayed totals, in US dollars and in shekels. */
  datatype Totals = Totals(usd: real, ils: real)

  /** The fixed shekels-per-dollar rate. */
  const IlsPerUsd: real := 3.5

  /** A line counts toward the total when it has an amount, a coin, and the coin is in the price table. */
  predicate Counts(l: Line, prices: map<string, CoinInfo>) {
    l.amount != "" && l.crypto != "" && l.crypto in prices
  }

  /** What one line adds to the USD accumulator; `parse` stands for `parseFloat`. */
  function Contribution(l: Line, prices: map<string, CoinInfo>, parse: string -> real): real {
    if Counts(l, prices) then parse(l.amount) * prices[l.crypto].price else 0.0
  }

  /** The USD accumulator after visiting `lines` in order. */
  function TotalUSD(lines: seq<Line>, prices: map<string, CoinInfo>, parse: string -> real): real {
    if lines == [] then 0.0
    else TotalUSD(lines[..|lines| - 1], prices, parse) + Contribution(lines[|lines| - 1], prices, parse)
  }

  /** The lines that count, in order. */
  function EligibleLines(lines: seq<Line>, prices: map<string, CoinInfo>): (r: seq<Line>)
    ensures forall l :: l in r ==> l in lines && Counts(l, prices)
    ensures forall l :: l in lines && Counts(l, prices) ==> l in r
    ensures forall l {:trigger multiset(r)[l]} :: multiset(r)[l] == if Counts(l, prices) then multiset(lines)[l] else 0
  {
    if lines == [] then []
    else
      var init, last := lines[..|lines| - 1], lines[|lines| - 1];
      assert lines == init + [last];
      assert forall l :: l in lines ==> l in init || l == last;
      EligibleLines(init, prices) + (if Counts(last, prices) then [last] else [])
  }

  /** The plain sum of amount times price over lines that all count. */
  function PricedSum(lines: seq<Line>, prices: map<string, CoinInfo>, parse: string -> real): real
    requires forall l :: l in lines ==> Counts(l, prices)
  {
    if lines == [] then 0.0
    else
      var init, last := lines[..|lines| - 1], lines[|lines| - 1];
      assert forall l :: l in init ==> l in lines;
      assert last in lines && Counts(last, prices);
      PricedSum(init, prices, parse) + parse(last.amount) * prices[last.crypto].price
  }

  /** The total is the sum of amount times price over exactly the lines that count. */
  lemma {:induction false} TotalIsPricedSumOfEligible(lines: seq<Line>, prices: map<string, CoinInfo>, parse: string -> real)
    ensures TotalUSD(lines, prices, parse) == PricedSum(EligibleLines(lines, prices), prices, parse)
  {
    if lines != [] {
      var init, last := lines[..|lines| - 1], lines[|lines| - 1];
      TotalIsPricedSumOfEligible(init, prices, parse);
      var e := EligibleLines(init, prices);
      if Counts(last, prices) {
        assert EligibleLines(lines, prices) == e + [last];
        assert (e + [last])[..|e|] == e;
      } else {
        assert EligibleLines(lines, prices) == e + [];
        assert e + [] == e;
      }
    }
  }

  /** The total of a concatenation is the sum of the totals. */
  lemma {:induction false} TotalAppend(a: seq<Line>, b: seq<Line>, prices: map<string, CoinInfo>, parse: string -> real)
    ensures TotalUSD(a + b, prices, parse) == TotalUSD(a, prices, parse) + TotalUSD(b, prices, parse)
  {
    if b == [] {
      assert a + b == a;
    } else {
      var init := b[..|b| - 1];
      TotalAppend(a, init, prices, parse);
      assert (a + b)[..|a + b| - 1] == a + init;
      assert (a + b)[|a + b| - 1] == b[|b| - 1];
    }
  }

  /** A line that does not count adds exactly nothing, wherever it stands. */
  lemma TotalSkipsIneligible(a: seq<Line>, l: Line, b: seq<Line>, prices: map<string, CoinInfo>, parse: string -> real)
    requires !Counts(l, prices)
    ensures TotalUSD(a + [l] + b, prices, parse) == TotalUSD(a + b, prices, parse)
  {
    TotalAppend(a + [l], b, prices, parse);
    TotalAppend(a, [l], prices, parse);
    TotalAppend(a, b, prices, parse);
    assert [l][..0] == [];
  }

  /** Lines without an amount never move the total. */
  lemma {:induction false} TotalOfBlankAmounts(lines: seq<Line>, prices: map<string, CoinInfo>, parse: string -> real)
    requires forall k :: 0 <= k < |lines| ==> lines[k].amount == ""
    ensures TotalUSD(lines, prices, parse) == 0.0
  {
    if lines != [] {
      TotalOfBlankAmounts(lines[..|lines| - 1], prices, parse);
    }
  }

  /** Appending a blank line leaves the total as it was. */
  lemma AppendBlankKeepsTotal(lines: seq<Line>, prices: map<string, CoinInfo>, parse: string -> real)
    ensures TotalUSD(lines + [Blank], prices, parse) == TotalUSD(lines, prices, parse)
  {
    assert (lines + [Blank])[..|lines|] == lines;
  }

  /** Registering an unknown coin at price 0 leaves every total unchanged. */
  lemma {:induction false} ZeroPricedCoinAddsNothing(lines: seq<Line>, prices: map<string, CoinInfo>, coin: string, logo: string, parse: string -> real)
    requires coin !in prices
    ensures TotalUSD(lines, prices[coin := CoinInfo(0.0, logo)], parse) == TotalUSD(lines, prices, parse)
  {
    if lines != [] {
      ZeroPricedCoinAddsNothing(lines[..|lines| - 1], prices, coin, logo, parse);
    }
  }

  /** A basket of 1 BTC and 2 ETH at 50000 and 2000 dollars is worth 54000 dollars, 189000 shekels. */
  lemma BasketExample(parse: string -> real)
    requires parse("1") == 1.0 && parse("2") == 2.0
    ensures var prices := map["BTC" := CoinInfo(50000.0, ""), "ETH" := CoinInfo(2000.0, "")];
            var usd := TotalUSD([Line("1", "BTC"), Line("2", "ETH")], prices, parse);
            usd == 54000.0 && usd * IlsPerUsd == 189000.0
  {
    var prices := map["BTC" := CoinInfo(50000.0, ""), "ETH" := CoinInfo(2000.0, "")];
    var lines := [Line("1", "BTC"), Line("2", "ETH")];
    assert lines[..1][..0] == [];
    assert TotalUSD(lines[..1], prices, parse) == 50000.0;
  }
}
