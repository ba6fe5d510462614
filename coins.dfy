/** Option for "may be absent" values: a JavaScript `undefined` result or a `null` state. */
module Wrappers {
  datatype Option<+T> = None | Some(value: T)
}

/**
 * The coin universe of the calculator and the conversion of the market-data
 * response into the symbol-keyed price table.
 */
module Coins {
  import opened Wrappers

  /** One entry of the price table: USD price and logo URL. */
  datatype CoinInfo = CoinInfo(price: real, logo: string)

  /** One record of the market-data response: feed id, current USD price, image URL. */
  datatype CoinRecord = CoinRecord(id: string, currentPrice: real, image: string)

  /** The ticker-to-feed-id table, in declaration order. */
  const CryptoIds: seq<(string, string)> := [
    ("BTC", "bitcoin"),
    ("ETH", "ethereum"),
    ("MATIC", "matic-network"),
    ("FIT", "fitfi"),
    ("DOT", "polkadot"),
    ("ADA", "cardano"),
    ("XRP", "ripple"),
    ("DOGE", "dogecoin"),
    ("LINK", "chainlink"),
    ("UNI", "uniswap")
  ]

  /** The keys of a ticker table, in order (`Object.keys`). */
  function Keys(table: seq<(string, string)>): (r: seq<string>)
    ensures |r| == |table|
    ensures forall k :: 0 <= k < |table| ==> r[k] == table[k].0
  {
    if table == [] then [] else [table[0].0] + Keys(table[1..])
  }

  /** The tickers of CryptoIds, in declaration order. */
  function Tickers(): seq<string> {
    Keys(CryptoIds)
  }

  /** The first key of `table` whose feed id is `id`, as `Array.prototype.find` returns it. */
  function FindKey(table: seq<(string, string)>, id: string): (r: Option<string>)
  {
    if table == [] then None
    else if table[0].1 == id then Some(table[0].0)
    else FindKey(table[1..], id)
  }

  /** FindKey finds a key exactly when some entry carries the id, and the key is the first such entry's. */
  lemma {:induction false} FindKeyFirstMatch(table: seq<(string, string)>, id: string)
    ensures FindKey(table, id).None? <==> (forall k :: 0 <= k < |table| ==> table[k].1 != id)
    ensures FindKey(table, id).Some? ==>
      exists k :: 0 <= k < |table| && table[k] == (FindKey(table, id).value, id) &&
        forall j :: 0 <= j < k ==> table[j].1 != id
  {
    if table != [] && table[0].1 != id {
      FindKeyFirstMatch(table[1..], id);
      var r := FindKey(table, id);
      if r.Some? {
        var k :| 0 <= k < |table[1..]| && table[1..][k] == (r.value, id) &&
          forall j :: 0 <= j < k ==> table[1..][j].1 != id;
        assert table[k + 1] == (r.value, id);
        forall j | 0 <= j < k + 1 ensures table[j].1 != id {
          if j > 0 { assert table[j] == table[1..][j - 1]; }
        }
      } else {
        forall k | 0 <= k < |table| ensures table[k].1 != id {
          if k > 0 { assert table[k] == table[1..][k - 1]; }
        }
      }
    }
  }

  /** With distinct feed ids, looking up an entry's id gives back its own key. */
  lemma {:induction false} FindKeyOfEntry(table: seq<(string, string)>, k: nat)
    requires k < |table|
    requires forall i, j :: 0 <= i < j < |table| ==> table[i].1 != table[j].1
    ensures FindKey(table, table[k].1) == Some(table[k].0)
  {
    if k > 0 {
      assert table[k] == table[1..][k - 1];
      FindKeyOfEntry(table[1..], k - 1);
    }
  }

  /** The feed ids of CryptoIds are pairwise distinct. */
  lemma CryptoIdsDistinct()
    ensures forall i, j :: 0 <= i < j < |CryptoIds| ==> CryptoIds[i].1 != CryptoIds[j].1
  {
  }

  /** Every ticker of CryptoIds is recovered from its own feed id. */
  lemma SymbolRoundTrip(k: nat)
    requires k < |CryptoIds|
    ensures FindKey(CryptoIds, CryptoIds[k].1) == Some(Tickers()[k])
  {
    CryptoIdsDistinct();
    FindKeyOfEntry(CryptoIds, k);
  }

  /**
   * The key a record is stored under. An id missing from CryptoIds makes the
   * lookup `undefined`, which a JavaScript property key turns into "undefined".
   */
  function KeyFor(id: string): string {
    match FindKey(CryptoIds, id)
    case Some(s) => s
    case None => "undefined"
  }

  /** A known feed id is stored under its ticker; any other id under "undefined". */
  lemma KeyForMeaning(id: string)
    ensures (forall k :: 0 <= k < |CryptoIds| ==> CryptoIds[k].1 != id) ==> KeyFor(id) == "undefined"
    ensures forall k :: 0 <= k < |CryptoIds| && CryptoIds[k].1 == id ==> KeyFor(id) == Tickers()[k]
  {
    FindKeyFirstMatch(CryptoIds, id);
    forall k | 0 <= k < |CryptoIds| && CryptoIds[k].1 == id
      ensures KeyFor(id) == Tickers()[k]
    {
      SymbolRoundTrip(k);
    }
  }

  function InfoOf(r: CoinRecord): CoinInfo {
    CoinInfo(r.currentPrice, r.image)
  }

  /** The price table the ingestion loop builds from `records`: each record in turn, later ones overwriting. */
  function Ingested(records: seq<CoinRecord>): map<string, CoinInfo> {
    if records == [] then map[]
    else
      var last := records[|records| - 1];
      Ingested(records[..|records| - 1])[KeyFor(last.id) := InfoOf(last)]
  }

  /** The table has one key per distinct record key, and nothing else. */
  lemma {:induction false} IngestedKeys(records: seq<CoinRecord>)
    ensures Ingested(records).Keys == set r | r in records :: KeyFor(r.id)
  {
    if records != [] {
      var init := records[..|records| - 1];
      IngestedKeys(init);
      assert records == init + [records[|records| - 1]];
    }
  }

  /** The entry under each key comes from the LAST record stored under that key. */
  lemma {:induction false} IngestedLastWins(records: seq<CoinRecord>, j: nat)
    requires j < |records|
    requires forall i :: j < i < |records| ==> KeyFor(records[i].id) != KeyFor(records[j].id)
    ensures KeyFor(records[j].id) in Ingested(records)
    ensures Ingested(records)[KeyFor(records[j].id)] == InfoOf(records[j])
  {
    if j < |records| - 1 {
      var init := records[..|records| - 1];
      assert init[j] == records[j];
      forall i | j < i < |init| ensures KeyFor(init[i].id) != KeyFor(init[j].id) {
        assert init[i] == records[i];
      }
      IngestedLastWins(init, j);
    }
  }

  /** The ingestion loop: fill a fresh dictionary from the response records one by one. */
  method Ingest(records: seq<CoinRecord>) returns (data: map<string, CoinInfo>)
    ensures data == Ingested(records)
  {
    data := map[];
    var i := 0;
    while i < |records|
      invariant 0 <= i <= |records|
      invariant data == Ingested(records[..i])
    {
      var coin := records[i];
      var symbol := FindKey(CryptoIds, coin.id);
      var key := match symbol case Some(s) => s case None => "undefined";
      assert records[..i + 1][..i] == records[..i];
      data := data[key := CoinInfo(coin.currentPrice, coin.image)];
      i := i + 1;
    }
    assert records[..|records|] == records;
  }

  /** The logo a custom coin is registered with. */
  const PlaceholderLogo: string := "https://via.placeholder.com/32"

  /** The custom-coin insert: a non-empty name absent from the table is added at price 0; otherwise nothing changes. */
  function WithCustomCoin(data: map<string, CoinInfo>, name: string): (r: map<string, CoinInfo>)
    ensures forall k :: k in data ==> k in r && r[k] == data[k]
    ensures r.Keys == if name != "" then data.Keys + {name} else data.Keys
    ensures name != "" && name !in data ==> r[name] == CoinInfo(0.0, PlaceholderLogo)
  {
    if name != "" && name !in data then data[name := CoinInfo(0.0, PlaceholderLogo)] else data
  }
}
