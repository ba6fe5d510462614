/**
 * The list transformations behind the line-item handlers: delete by index,
 * and the reset to one blank line per known ticker.
 */
module ListEdits {
  import opened Coins
  import opened Valuation

  /** The elements of `s` whose position is not `index`, kept in order (`filter((_, i) => i !== index)`). */
  function Without<T>(s: seq<T>, index: int): seq<T> {
    if s == [] then []
    else Without(s[..|s| - 1], index) + (if |s| - 1 == index then [] else [s[|s| - 1]])
  }

  /** Deleting an index in range cuts out exactly that element; any other index changes nothing. */
  lemma {:induction false} WithoutCutsOne<T>(s: seq<T>, index: int)
    ensures 0 <= index < |s| ==> Without(s, index) == s[..index] + s[index + 1..]
    ensures !(0 <= index < |s|) ==> Without(s, index) == s
  {
    if s != [] {
      var init, last := s[..|s| - 1], s[|s| - 1];
      WithoutCutsOne(init, index);
      if index == |s| - 1 {
        assert s[index + 1..] == [];
        assert s[..index] == init;
      } else if 0 <= index < |s| - 1 {
        assert init[..index] == s[..index];
        assert init[index + 1..] + [last] == s[index + 1..];
      } else {
        assert init + [last] == s;
      }
    }
  }

  /** Deleting an index in range shortens the list by one and keeps the others in order. */
  lemma WithoutShape<T>(s: seq<T>, index: int)
    requires 0 <= index < |s|
    ensures |Without(s, index)| == |s| - 1
    ensures forall k :: 0 <= k < index ==> Without(s, index)[k] == s[k]
    ensures forall k :: index <= k < |s| - 1 ==> Without(s, index)[k] == s[k + 1]
  {
    WithoutCutsOne(s, index);
  }

  /** Deleting a line lowers the total by exactly that line's contribution. */
  lemma RemoveLowersTotalByContribution(lines: seq<Line>, index: int, prices: map<string, CoinInfo>, parse: string -> real)
    requires 0 <= index < |lines|
    ensures TotalUSD(Without(lines, index), prices, parse) ==
            TotalUSD(lines, prices, parse) - Contribution(lines[index], prices, parse)
  {
    WithoutCutsOne(lines, index);
    var a, b := lines[..index], lines[index + 1..];
    assert lines == a + [lines[index]] + b;
    TotalAppend(a, b, prices, parse);
    TotalAppend(a + [lines[index]], b, prices, parse);
    TotalAppend(a, [lines[index]], prices, parse);
    assert [lines[index]][..0] == [];
  }

  /** One blank-amount line per key (`keys.map(crypto => ({ amount: "", crypto }))`). */
  function BlankLinesFor(keys: seq<string>): (r: seq<Line>)
    ensures |r| == |keys|
    ensures forall k :: 0 <= k < |keys| ==> r[k] == Line("", keys[k])
  {
    if keys == [] then [] else [Line("", keys[0])] + BlankLinesFor(keys[1..])
  }

  /** The list the add-all action installs. */
  function AllCryptoLines(): seq<Line> {
    BlankLinesFor(Tickers())
  }

  /** For any ticker table, the add-all lines follow its keys in order and all have a blank amount, so they total 0. */
  lemma BlankLinesOfTable(table: seq<(string, string)>, prices: map<string, CoinInfo>, parse: string -> real)
    ensures |BlankLinesFor(Keys(table))| == |table|
    ensures forall k :: 0 <= k < |table| ==> BlankLinesFor(Keys(table))[k] == Line("", table[k].0)
    ensures TotalUSD(BlankLinesFor(Keys(table)), prices, parse) == 0.0
  {
    TotalOfBlankAmounts(BlankLinesFor(Keys(table)), prices, parse);
  }

  /** Add-all yields ten blank lines, BTC first, one per CryptoIds key in order, all worth 0. */
  lemma AllCryptoLinesShape(prices: map<string, CoinInfo>, parse: string -> real)
    ensures |AllCryptoLines()| == |CryptoIds| == 10
    ensures AllCryptoLines()[0] == Line("", "BTC")
    ensures forall k :: 0 <= k < |CryptoIds| ==> AllCryptoLines()[k] == Line("", CryptoIds[k].0)
    ensures TotalUSD(AllCryptoLines(), prices, parse) == 0.0
  {
    BlankLinesOfTable(CryptoIds, prices, parse);
  }
}
