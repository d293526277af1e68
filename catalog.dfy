/**
 * The priced-token catalog that `fetchPrices` builds from the aggregated
 * prices: display names, the in-place sort by price times balance, and the
 * default selection of the two sides.
 */
module Catalog {
  import opened Wrappers
  import opened Prices

  /** A token as the form holds it; balance and price are optional numbers. */
  datatype Token = Token(symbol: string, name: string, balance: Option<real>, price: Option<real>)

  /** The fixed symbol-to-name table. */
  const TokenNames: map<string, string> := map[
    "BLUR" := "Blur",
    "bNEO" := "Binance NEO",
    "BUSD" := "Binance USD",
    "USD" := "US Dollar",
    "ETH" := "Ethereum",
    "GMX" := "GMX",
    "STEVMOS" := "Staked Evmos",
    "LUNA" := "Terra Luna",
    "RATOM" := "Regen Atom",
    "STRD" := "Stride",
    "EVMOS" := "Evmos",
    "IBCX" := "IBC Index",
    "IRIS" := "IRISnet",
    "ampLUNA" := "Amplified Luna",
    "KUJI" := "Kujira",
    "STOSMO" := "Staked Osmosis",
    "USDC" := "USD Coin",
    "axlUSDC" := "Axelar USDC",
    "ATOM" := "Cosmos",
    "STATOM" := "Staked Atom",
    "OSMO" := "Osmosis",
    "rSWTH" := "Reward Switcheo",
    "STLUNA" := "Staked Luna",
    "LSI" := "Liquid Staking Index",
    "OKB" := "OKB",
    "OKT" := "OKExChain Token",
    "SWTH" := "Switcheo",
    "USC" := "USC",
    "WBTC" := "Wrapped Bitcoin",
    "wstETH" := "Wrapped Staked Ether",
    "YieldUSD" := "Yield USD",
    "ZIL" := "Zilliqa",
    "BTC" := "Bitcoin",
    "BNB" := "Binance Coin",
    "ADA" := "Cardano",
    "DOT" := "Polkadot",
    "AVAX" := "Avalanche",
    "SOL" := "Solana"
  ]

  /** `names[symbol] || symbol`: a missing or empty name falls back to the symbol. */
  function DisplayName(names: map<string, string>, symbol: string): (r: string)
    ensures symbol in names && names[symbol] != "" ==> r == names[symbol]
    ensures r == symbol || (symbol in names && r == names[symbol])
    ensures r == "" ==> symbol == ""
  {
    if symbol in names && names[symbol] != "" then names[symbol] else symbol
  }

  /** The token `fetchPrices` builds for the symbol `c` of the map `m`. */
  function EntryOf(names: map<string, string>, m: PriceMap, balanceOf: string -> real, c: string): (r: Token)
    requires c in m.prices
    ensures r.symbol == c && r.name == DisplayName(names, c)
    ensures r.price == m.Get(c) && r.balance == Some(balanceOf(c))
    ensures Cap(r) == m.prices[c] * balanceOf(c)
  {
    Token(c, DisplayName(names, c), Some(balanceOf(c)), Some(m.prices[c]))
  }

  /**
   * The map's entries, in insertion order, as tokens: one per currency,
   * each with its name from the table, its aggregated price and the balance
   * `balanceOf` supplies.
   */
  function Entries(names: map<string, string>, m: PriceMap, balanceOf: string -> real): (tokens: seq<Token>)
    requires m.Valid()
    ensures |tokens| == |m.keys|
    ensures forall i :: 0 <= i < |tokens| ==> tokens[i].symbol == m.keys[i]
    ensures forall i :: 0 <= i < |tokens| ==> tokens[i] == EntryOf(names, m, balanceOf, m.keys[i])
    ensures forall i, j :: 0 <= i < j < |tokens| ==> tokens[i].symbol != tokens[j].symbol
    ensures forall t :: t in tokens ==> t.symbol in m.prices && t == EntryOf(names, m, balanceOf, t.symbol)
    ensures forall c :: c in m.prices ==> EntryOf(names, m, balanceOf, c) in tokens
  {
    var tokens := seq(|m.keys|, i requires 0 <= i < |m.keys| => EntryOf(names, m, balanceOf, m.keys[i]));
    assert forall c :: c in m.prices ==> tokens[IndexOf(m.keys, c)] == EntryOf(names, m, balanceOf, c);
    tokens
  }

  function IndexOf(keys: seq<string>, c: string): (i: nat)
    requires c in keys
    ensures i < |keys| && keys[i] == c
  {
    if keys[0] == c then 0 else 1 + IndexOf(keys[1..], c)
  }

  /** The sort key `(price || 0) * (balance || 0)`. */
  function Cap(t: Token): (r: real)
    ensures t.price.Some? && t.balance.Some? ==> r == t.price.value * t.balance.value
    ensures t.price.None? || t.balance.None? ==> r == 0.0
  {
    OrZero(t.price) * OrZero(t.balance)
  }

  /** `s` is in non-increasing order of `key`. */
  ghost predicate SortedDescending(s: seq<Token>, key: Token -> real) {
    forall i, j :: 0 <= i < j < |s| ==> key(s[i]) >= key(s[j])
  }

  ghost predicate SortedByCap(s: seq<Token>) {
    SortedDescending(s, Cap)
  }

  /**
   * `a.sort((x, y) => key(y) - key(x))`: in place, largest key first.
   * Written as an insertion sort that moves an element only past a strictly
   * smaller key, so equal keys keep their order as in the JavaScript
   * engine's stable sort.
   */
  method SortDescending(a: array<Token>, key: Token -> real)
    modifies a
    ensures SortedDescending(a[..], key)
    ensures multiset(a[..]) == multiset(old(a[..]))
  {
    var i := 0;
    while i < a.Length
      invariant 0 <= i <= a.Length
      invariant SortedDescending(a[..i], key)
      invariant multiset(a[..]) == multiset(old(a[..]))
    {
      InsertLast(a, i, key);
      i := i + 1;
    }
    assert a[..a.Length] == a[..];
  }

  /** Moves `a[i]` left past every strictly smaller key, so that `a[..i+1]` is sorted. */
  method InsertLast(a: array<Token>, i: nat, key: Token -> real)
    requires i < a.Length
    requires SortedDescending(a[..i], key)
    modifies a
    ensures SortedDescending(a[..i + 1], key)
    ensures multiset(a[..i + 1]) == multiset(old(a[..i + 1]))
    ensures a[i + 1..] == old(a[i + 1..])
    ensures multiset(a[..]) == multiset(old(a[..]))
  {
    var j := i;
    while j > 0 && key(a[j - 1]) < key(a[j])
      invariant 0 <= j <= i
      invariant SortedBut(a[..], i, j, key)
      invariant multiset(a[..i + 1]) == multiset(old(a[..i + 1]))
      invariant a[i + 1..] == old(a[i + 1..])
      invariant multiset(a[..]) == multiset(old(a[..]))
    {
      SortedButStep(a[..], i, j, key);
      ghost var prefix := a[..i + 1];
      SwapAdjacent(a, j);
      assert a[..i + 1] == prefix[j - 1 := prefix[j]][j := prefix[j - 1]];
      j := j - 1;
    }
    SortedButDone(a[..], i, j, key);
  }

  /** `s[..i+1]` is sorted but for the element at `j`, which may be larger than those before it. */
  ghost predicate SortedBut(s: seq<Token>, i: nat, j: nat, key: Token -> real) {
    && j <= i < |s|
    && (forall k, l :: 0 <= k < l <= i && l != j ==> key(s[k]) >= key(s[l]))
    && (0 < j < i ==> key(s[j - 1]) >= key(s[j + 1]))
  }

  lemma SortedButStep(s: seq<Token>, i: nat, j: nat, key: Token -> real)
    requires SortedBut(s, i, j, key) && 0 < j && key(s[j - 1]) < key(s[j])
    ensures SortedBut(s[j - 1 := s[j]][j := s[j - 1]], i, j - 1, key)
  {
  }

  lemma SortedButDone(s: seq<Token>, i: nat, j: nat, key: Token -> real)
    requires SortedBut(s, i, j, key) && (j == 0 || key(s[j - 1]) >= key(s[j]))
    ensures SortedDescending(s[..i + 1], key)
  {
  }

  /** Exchanges `a[j - 1]` and `a[j]`. */
  method SwapAdjacent(a: array<Token>, j: nat)
    requires 0 < j < a.Length
    modifies a
    ensures a[..] == old(a[..])[j - 1 := old(a[j])][j := old(a[j - 1])]
    ensures multiset(a[..]) == multiset(old(a[..]))
  {
    a[j - 1], a[j] := a[j], a[j - 1];
  }

  /**
   * The catalog half of `fetchPrices`: aggregate the feed, turn the map's
   * entries into tokens and sort them in place, largest cap first.
   */
  method BuildCatalog(feed: seq<PriceObservation>, names: map<string, string>, balanceOf: string -> real)
    returns (catalog: seq<Token>)
    ensures multiset(catalog) == multiset(Entries(names, Aggregate(feed), balanceOf))
    ensures forall t :: t in catalog <==> t in Entries(names, Aggregate(feed), balanceOf)
    ensures SortedByCap(catalog)
  {
    var latest := AggregatePrices(feed);
    var entries := Entries(names, latest, balanceOf);
    var a := new Token[|entries|](i requires 0 <= i < |entries| => entries[i]);
    assert a[..] == entries;
    SortDescending(a, Cap);
    catalog := a[..];
    forall t ensures t in catalog <==> t in entries {
      assert t in catalog <==> t in multiset(catalog);
      assert t in entries <==> t in multiset(entries);
    }
  }

  /** `catalog.find(t => t.symbol === symbol) || catalog[fallback]`. */
  function Preferred(catalog: seq<Token>, symbol: string, fallback: nat): (t: Token)
    requires fallback < |catalog|
    ensures t in catalog
    ensures (exists i :: 0 <= i < |catalog| && catalog[i].symbol == symbol) ==>
      exists i :: 0 <= i < |catalog| && catalog[i] == t && t.symbol == symbol &&
        forall j :: 0 <= j < i ==> catalog[j].symbol != symbol
    ensures (forall i :: 0 <= i < |catalog| ==> catalog[i].symbol != symbol) ==> t == catalog[fallback]
  {
    match FindSymbol(catalog, symbol)
    case Some(i) => catalog[i]
    case None => catalog[fallback]
  }

  function FindSymbol(catalog: seq<Token>, symbol: string): (r: Option<nat>)
    ensures r.Some? ==> r.value < |catalog| && catalog[r.value].symbol == symbol
    ensures r.Some? ==> forall j :: 0 <= j < r.value ==> catalog[j].symbol != symbol
    ensures r.None? ==> forall j :: 0 <= j < |catalog| ==> catalog[j].symbol != symbol
  {
    if |catalog| == 0 then None
    else if catalog[0].symbol == symbol then Some(0)
    else match FindSymbol(catalog[1..], symbol)
      case None => None
      case Some(k) => Some(k + 1)
  }

  /** The `from` side after a load: filled with ETH, else the first token, only when empty. */
  function DefaultFrom(current: Option<Token>, catalog: seq<Token>): (r: Option<Token>)
    ensures current.Some? ==> r == current
    ensures current.None? ==> (r.Some? <==> |catalog| > 0)
    ensures r.Some? ==> r.value in catalog || r == current
    ensures current.None? && |catalog| > 0 && (exists i :: 0 <= i < |catalog| && catalog[i].symbol == "ETH") ==>
      exists i :: 0 <= i < |catalog| && Some(catalog[i]) == r && catalog[i].symbol == "ETH" &&
        forall j :: 0 <= j < i ==> catalog[j].symbol != "ETH"
    ensures current.None? && |catalog| > 0 && (forall i :: 0 <= i < |catalog| ==> catalog[i].symbol != "ETH") ==>
      r == Some(catalog[0])
  {
    if current.None? && |catalog| > 0 then Some(Preferred(catalog, "ETH", 0)) else current
  }

  /** The `to` side after a load: filled with USDC, else the second token, only when empty. */
  function DefaultTo(current: Option<Token>, catalog: seq<Token>): (r: Option<Token>)
    ensures current.Some? ==> r == current
    ensures current.None? ==> (r.Some? <==> |catalog| > 1)
    ensures r.Some? ==> r.value in catalog || r == current
    ensures current.None? && |catalog| > 1 && (exists i :: 0 <= i < |catalog| && catalog[i].symbol == "USDC") ==>
      exists i :: 0 <= i < |catalog| && Some(catalog[i]) == r && catalog[i].symbol == "USDC" &&
        forall j :: 0 <= j < i ==> catalog[j].symbol != "USDC"
    ensures current.None? && |catalog| > 1 && (forall i :: 0 <= i < |catalog| ==> catalog[i].symbol != "USDC") ==>
      r == Some(catalog[1])
  {
    if current.None? && |catalog| > 1 then Some(Preferred(catalog, "USDC", 1)) else current
  }

  /**
   * Defaults can put one token on both sides: with no ETH and USDC first, the
   * `from` side falls back to the first token, which is USDC.
   */
  lemma DefaultsMayCoincide(balanceOf: string -> real)
    ensures var usdc := Token("USDC", "USD Coin", Some(1.0), Some(1.0));
      var catalog := [usdc, Token("ATOM", "Cosmos", Some(1.0), Some(9.0))];
      DefaultFrom(None, catalog) == DefaultTo(None, catalog) == Some(usdc)
  {
    var usdc := Token("USDC", "USD Coin", Some(1.0), Some(1.0));
    var catalog := [usdc, Token("ATOM", "Cosmos", Some(1.0), Some(9.0))];
    assert FindSymbol(catalog, "ETH") == None;
  }
}
