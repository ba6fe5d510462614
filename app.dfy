/**
 * The calculator component's state and handlers. Line items are objects: the
 * edit handlers write an item's field in place, and a saved history entry holds
 * the same item objects as the live list.
 */
module App {
  import opened Wrappers
  import opened Coins
  import opened Valuation
  import opened ListEdits

  /** One line-item object of the input list. */
  class LineItem {
    var amount: string
    var crypto: string

    constructor (amount: string, crypto: string)
      ensures this.amount == amount && this.crypto == crypto
    {
      this.amount := amount;
      this.crypto := crypto;
    }
  }

  /** What the item objects hold right now, in order. */
  function Snapshot(items: seq<LineItem>): (r: seq<Line>)
    reads items
    ensures |r| == |items|
    ensures forall k :: 0 <= k < |items| ==> r[k] == Line(items[k].amount, items[k].crypto)
  {
    if items == [] then []
    else Snapshot(items[..|items| - 1]) + [Line(items[|items| - 1].amount, items[|items| - 1].crypto)]
  }

  /** No item object appears twice in the list. */
  predicate Distinct(items: seq<LineItem>) {
    forall i, j :: 0 <= i < j < |items| ==> items[i] != items[j]
  }

  /** Deleting an index keeps the objects distinct. */
  lemma DistinctWithout(items: seq<LineItem>, index: int)
    requires Distinct(items)
    ensures Distinct(Without(items, index))
  {
    WithoutCutsOne(items, index);
    if 0 <= index < |items| {
      WithoutShape(items, index);
      var r := Without(items, index);
      forall i, j | 0 <= i < j < |r| ensures r[i] != r[j] {
        var pi := if i < index then i else i + 1;
        var pj := if j < index then j else j + 1;
        assert r[i] == items[pi] && r[j] == items[pj] && pi < pj;
      }
    }
  }

  /** Deleting an index commutes with reading the objects' values. */
  lemma {:induction false} SnapshotWithout(items: seq<LineItem>, index: int)
    ensures Snapshot(Without(items, index)) == Without(Snapshot(items), index)
  {
    if items != [] {
      var init := items[..|items| - 1];
      var lines := Snapshot(items);
      SnapshotWithout(init, index);
      assert Snapshot(init) == lines[..|lines| - 1];
      var tail := if |items| - 1 == index then [] else [items[|items| - 1]];
      SnapshotAppend(Without(init, index), tail);
    }
  }

  /** Reading the values of a concatenation. */
  lemma SnapshotAppend(a: seq<LineItem>, b: seq<LineItem>)
    ensures Snapshot(a + b) == Snapshot(a) + Snapshot(b)
  {
  }

  /** Allocate one new blank-amount item per key, in order (the `map` of the add-all action). */
  method NewBlankItems(keys: seq<string>) returns (items: seq<LineItem>)
    ensures Distinct(items)
    ensures Snapshot(items) == BlankLinesFor(keys)
    ensures fresh(items)
  {
    items := [];
    var i := 0;
    while i < |keys|
      invariant 0 <= i <= |keys|
      invariant |items| == i
      invariant forall k :: 0 <= k < i ==> fresh(items[k])
      invariant forall k :: 0 <= k < i ==> items[k].amount == "" && items[k].crypto == keys[k]
      invariant Distinct(items)
    {
      var item := new LineItem("", keys[i]);
      items := items + [item];
      i := i + 1;
    }
  }

  /** A saved calculation: the date text, the item list (sharing its objects), and the totals. */
  datatype HistoryEntry = HistoryEntry(date: string, amounts: seq<LineItem>, total: Totals)

  /** How the market-data request ended: the response records, or an error. */
  datatype FetchOutcome = Fetched(records: seq<CoinRecord>) | FetchFailed

  /** The message shown when the market data cannot be loaded. */
  const LoadErrorMessage: string := "לא הצלחנו לטעון את נתוני המטבעות. אנא נסה שוב מאוחר יותר."

  class CryptoCalculator {
    /** The component's ticker-to-feed-id table; always CryptoIds. */
    const cryptoIds: seq<(string, string)>
    var cryptoData: map<string, CoinInfo>
    var amounts: seq<LineItem>
    var totalValue: Totals
    var history: seq<HistoryEntry>
    var isLoading: bool
    var error: Option<string>
    var customCrypto: string

    /** Every handler keeps the item objects of the live list pairwise distinct. */
    predicate Valid()
      reads this
    {
      Distinct(amounts)
    }

    /** The initial state: no prices, one blank item, zero totals, empty history, loading. */
    constructor ()
      ensures Valid() && cryptoIds == CryptoIds
      ensures cryptoData == map[] && |amounts| == 1 && fresh(amounts[0]) && amounts[0].amount == "" && amounts[0].crypto == ""
      ensures totalValue == Totals(0.0, 0.0) && history == []
      ensures isLoading && error == None && customCrypto == ""
    {
      var first := new LineItem("", "");
      cryptoIds := CryptoIds;
      cryptoData := map[];
      amounts := [first];
      totalValue := Totals(0.0, 0.0);
      history := [];
      isLoading := true;
      error := None;
      customCrypto := "";
    }

    /** The market-data refresh: on success the table is replaced wholesale, on failure it is kept and the error set. */
    method FetchCryptoData(outcome: FetchOutcome)
      modifies this`cryptoData, this`isLoading, this`error
      ensures !isLoading
      ensures outcome.Fetched? ==> cryptoData == Ingested(outcome.records) && error == None
      ensures outcome.FetchFailed? ==> cryptoData == old(cryptoData) && error == Some(LoadErrorMessage)
    {
      isLoading := true;
      error := None;
      match outcome {
        case Fetched(records) =>
          var newCryptoData := Ingest(records);
          cryptoData := newCryptoData;
          isLoading := false;
        case FetchFailed =>
          error := Some(LoadErrorMessage);
          isLoading := false;
      }
    }

    /** Write the amount of item `index` in place; the list itself is the same list of objects. */
    method HandleAmountChange(index: nat, value: string)
      requires Valid() && index < |amounts|
      modifies this`amounts, amounts[index]
      ensures amounts == old(amounts) && Valid()
      ensures Snapshot(amounts) == old(Snapshot(amounts))[index := Line(value, old(amounts[index].crypto))]
    {
      var newAmounts := amounts;
      newAmounts[index].amount := value;
      amounts := newAmounts;
    }

    /** Write the coin of item `index` in place. */
    method HandleCryptoChange(index: nat, value: string)
      requires Valid() && index < |amounts|
      modifies this`amounts, amounts[index]
      ensures amounts == old(amounts) && Valid()
      ensures Snapshot(amounts) == old(Snapshot(amounts))[index := Line(old(amounts[index].amount), value)]
    {
      var newAmounts := amounts;
      newAmounts[index].crypto := value;
      amounts := newAmounts;
    }

    /** Append one new blank item; the old items stay an unchanged prefix. */
    method AddNewCryptoInput()
      requires Valid()
      modifies this`amounts
      ensures Valid()
      ensures |amounts| == |old(amounts)| + 1 && amounts[..|old(amounts)|] == old(amounts)
      ensures fresh(amounts[|amounts| - 1])
      ensures Snapshot(amounts) == old(Snapshot(amounts)) + [Blank]
    {
      var item := new LineItem("", "");
      amounts := amounts + [item];
    }

    /** Register the typed custom coin at price 0 if the name is non-empty and unknown, then clear the input. */
    method AddCustomCrypto()
      modifies this`cryptoData, this`customCrypto
      ensures cryptoData == WithCustomCoin(old(cryptoData), old(customCrypto))
      ensures customCrypto == if old(customCrypto) != "" && old(customCrypto) !in old(cryptoData) then "" else old(customCrypto)
    {
      if customCrypto != "" && customCrypto !in cryptoData {
        cryptoData := cryptoData[customCrypto := CoinInfo(0.0, PlaceholderLogo)];
        customCrypto := "";
      }
    }

    /** Replace the list by one new blank-amount item per key of the ticker table, in order. */
    method AddAllCryptos()
      modifies this`amounts
      ensures Valid()
      ensures Snapshot(amounts) == BlankLinesFor(Keys(cryptoIds))
      ensures fresh(amounts)
    {
      var allCryptos := NewBlankItems(Keys(cryptoIds));
      amounts := allCryptos;
    }

    /** Keep every item whose position is not `index`. */
    method RemoveCryptoInput(index: int)
      requires Valid()
      modifies this`amounts
      ensures Valid()
      ensures amounts == Without(old(amounts), index)
      ensures 0 <= index < |old(amounts)| ==> amounts == old(amounts)[..index] + old(amounts)[index + 1..]
      ensures !(0 <= index < |old(amounts)|) ==> amounts == old(amounts)
      ensures Snapshot(amounts) == Without(old(Snapshot(amounts)), index)
    {
      WithoutCutsOne(amounts, index);
      DistinctWithout(amounts, index);
      SnapshotWithout(amounts, index);
      amounts := Without(amounts, index);
    }

    /** The USD accumulator of the total computation: visit the items in order, adding each counted amount times price. */
    method ComputeTotalUSD(parse: string -> real) returns (totalUSD: real)
      ensures totalUSD == TotalUSD(Snapshot(amounts), cryptoData, parse)
    {
      totalUSD := 0.0;
      var i := 0;
      while i < |amounts|
        invariant 0 <= i <= |amounts|
        invariant totalUSD == TotalUSD(Snapshot(amounts[..i]), cryptoData, parse)
      {
        var item := amounts[i];
        if item.amount != "" && item.crypto != "" && item.crypto in cryptoData {
          totalUSD := totalUSD + parse(item.amount) * cryptoData[item.crypto].price;
        }
        assert amounts[..i + 1][..i] == amounts[..i];
        i := i + 1;
      }
      assert amounts[..|amounts|] == amounts;
    }

    /** Recompute the totals: USD from the accumulator, ILS as the same accumulator times the fixed rate. */
    method CalculateTotal(parse: string -> real)
      modifies this`totalValue
      ensures totalValue.usd == TotalUSD(Snapshot(amounts), cryptoData, parse)
      ensures totalValue.ils == totalValue.usd * IlsPerUsd
    {
      var totalUSD := ComputeTotalUSD(parse);
      ghost var lines := Snapshot(amounts);
      totalValue := Totals(totalUSD, totalUSD * IlsPerUsd);
      assert Snapshot(amounts) == lines;
    }

    /** Prepend an entry holding the current item objects (a shallow copy of the list) and the current totals. */
    method SaveToHistory(date: string)
      modifies this`history
      ensures history == [HistoryEntry(date, amounts, totalValue)] + old(history)
      ensures Snapshot(history[0].amounts) == Snapshot(amounts)
    {
      var newEntry := HistoryEntry(date, amounts, totalValue);
      history := [newEntry] + history;
    }

    /**
     * Saving and then editing an amount: the saved entry, which shares the item
     * objects, shows the new amount next to the old total.
     */
    method SaveThenEditAmount(date: string, index: nat, value: string)
      requires Valid() && index < |amounts|
      modifies this`history, this`amounts, amounts[index]
      ensures amounts == old(amounts)
      ensures |history| == |old(history)| + 1 && history[1..] == old(history) && history[0].total == old(totalValue)
      ensures Snapshot(history[0].amounts) == Snapshot(amounts)
      ensures Snapshot(history[0].amounts)[index].amount == value
      ensures value != old(amounts[index].amount) ==> Snapshot(history[0].amounts) != old(Snapshot(amounts))
    {
      ghost var saved := Snapshot(amounts);
      SaveToHistory(date);
      HandleAmountChange(index, value);
      assert Snapshot(history[0].amounts)[index] != saved[index] ==> Snapshot(history[0].amounts) != saved;
    }

    /** The amount edit without sharing: item `index` is replaced by a new object. */
    method ReplaceAmount(index: nat, value: string)
      requires Valid() && index < |amounts|
      modifies this`amounts
      ensures Valid() && |amounts| == |old(amounts)| && fresh(amounts[index])
      ensures forall k :: 0 <= k < |amounts| && k != index ==> amounts[k] == old(amounts[k])
      ensures Snapshot(amounts) == old(Snapshot(amounts))[index := Line(value, old(amounts[index].crypto))]
      ensures forall k :: 0 <= k < |history| ==> Snapshot(history[k].amounts) == old(Snapshot(history[k].amounts))
    {
      var item := new LineItem(value, amounts[index].crypto);
      amounts := amounts[index := item];
    }

    /** The coin edit without sharing: item `index` is replaced by a new object. */
    method ReplaceCrypto(index: nat, value: string)
      requires Valid() && index < |amounts|
      modifies this`amounts
      ensures Valid() && |amounts| == |old(amounts)| && fresh(amounts[index])
      ensures forall k :: 0 <= k < |amounts| && k != index ==> amounts[k] == old(amounts[k])
      ensures Snapshot(amounts) == old(Snapshot(amounts))[index := Line(old(amounts[index].amount), value)]
      ensures forall k :: 0 <= k < |history| ==> Snapshot(history[k].amounts) == old(Snapshot(history[k].amounts))
    {
      var item := new LineItem(amounts[index].amount, value);
      amounts := amounts[index := item];
    }

    /** Saving and then editing without sharing: the saved entry keeps exactly what was saved. */
    method SaveThenReplaceAmount(date: string, index: nat, value: string)
      requires Valid() && index < |amounts|
      modifies this`history, this`amounts
      ensures |history| == |old(history)| + 1 && history[1..] == old(history) && history[0].total == old(totalValue)
      ensures Snapshot(history[0].amounts) == old(Snapshot(amounts))
      ensures |amounts| == |old(amounts)| && Snapshot(amounts)[index].amount == value
    {
      SaveToHistory(date);
      ReplaceAmount(index, value);
    }
  }
}
