/**
 * The reduction of the price feed to one price per currency: the `forEach`
 * loop of `fetchPrices` that fills a JavaScript `Map<string, number>`.
 * Dates are modelled by their timestamps.
 */
module Prices {
  import opened Wrappers

  /** One element of the feed. */
  datatype PriceObservation = PriceObservation(currency: string, date: int, price: real)

  /** A JavaScript `Map<string, number>`: its keys in insertion order and its entries. */
  datatype PriceMap = PriceMap(keys: seq<string>, prices: map<string, real>)
  {
    ghost predicate Valid() {
      && (forall i, j :: 0 <= i < j < |keys| ==> keys[i] != keys[j])
      && (forall c :: c in prices <==> c in keys)
    }

    /** `Map.prototype.get` */
    function Get(c: string): Option<real> {
      if c in prices then Some(prices[c]) else None
    }

    /** `Map.prototype.set`: a new key goes last, a known key keeps its place. */
    function Set(c: string, p: real): (m: PriceMap)
      requires Valid()
      ensures m.Valid()
      ensures m.Get(c) == Some(p)
      ensures forall d :: d != c ==> m.Get(d) == Get(d)
      ensures c in keys ==> m.keys == keys
      ensures c !in keys ==> m.keys == keys + [c]
    {
      if c in prices then PriceMap(keys, prices[c := p]) else PriceMap(keys + [c], prices[c := p])
    }
  }

  const EmptyMap := PriceMap([], map[])

  predicate IsObservationOf(o: PriceObservation, c: string, p: real) {
    o.currency == c && o.price == p
  }

  /** `feed.find(p => p.currency === c && p.price === v)`, as the index it finds. */
  function Find(feed: seq<PriceObservation>, c: string, v: real): (r: Option<nat>)
    ensures r.Some? ==> r.value < |feed| && IsObservationOf(feed[r.value], c, v)
    ensures r.Some? ==> forall i :: 0 <= i < r.value ==> !IsObservationOf(feed[i], c, v)
    ensures r.None? ==> forall i :: 0 <= i < |feed| ==> !IsObservationOf(feed[i], c, v)
  {
    if |feed| == 0 then None
    else if IsObservationOf(feed[0], c, v) then Some(0)
    else match Find(feed[1..], c, v)
      case None => None
      case Some(k) => Some(k + 1)
  }

  /**
   * Whether one iteration of the loop over `feed` stores `item`'s price. A
   * missing price, or a stored price of 0 (falsy), is always replaced.
   * Otherwise the stored price is looked up again in the whole feed, and the
   * item replaces it only when its date is strictly later than the date of
   * the observation that lookup finds.
   */
  predicate Replaces(feed: seq<PriceObservation>, m: PriceMap, item: PriceObservation) {
    match m.Get(item.currency)
    case None => true
    case Some(existing) =>
      existing == 0.0 ||
      match Find(feed, item.currency, existing)
      // `new Date('')` is an invalid date, and no date compares greater than it
      case None => false
      case Some(j) => item.date > feed[j].date
  }

  /** One iteration of the loop over `feed`. */
  function Step(feed: seq<PriceObservation>, m: PriceMap, item: PriceObservation): (r: PriceMap)
    requires m.Valid()
    ensures r.Valid()
  {
    if Replaces(feed, m, item) then m.Set(item.currency, item.price) else m
  }

  /** The map after the loop has visited the first `n` observations. */
  function AggregatePrefix(feed: seq<PriceObservation>, n: nat): (r: PriceMap)
    requires n <= |feed|
    ensures r.Valid()
    decreases n
  {
    if n == 0 then EmptyMap else Step(feed, AggregatePrefix(feed, n - 1), feed[n - 1])
  }

  /** The map after the whole loop. */
  function Aggregate(feed: seq<PriceObservation>): PriceMap {
    AggregatePrefix(feed, |feed|)
  }

  /**
   * The loop itself, over the already-parsed feed. What its result means is
   * stated by `AggregateMeaning` below.
   */
  method AggregatePrices(feed: seq<PriceObservation>) returns (latest: PriceMap)
    ensures latest == Aggregate(feed)
  {
    latest := EmptyMap;
    for i := 0 to |feed|
      invariant latest == AggregatePrefix(feed, i)
    {
      latest := Visit(feed, latest, feed[i]);
    }
  }

  /**
   * The `forEach` callback as the loop runs it, one test at a time. `Step`
   * is its specification: the lemmas about the loop reason about `Step`,
   * which a function or lemma can call and a method cannot.
   */
  method Visit(feed: seq<PriceObservation>, latest: PriceMap, item: PriceObservation) returns (next: PriceMap)
    requires latest.Valid()
    ensures next == Step(feed, latest, item)
  {
    var existing := latest.Get(item.currency);
    var replace := true;
    if existing.Some? && existing.value != 0.0 {
      var j := Find(feed, item.currency, existing.value);
      replace := j.Some? && item.date > feed[j.value].date;
    }
    assert replace == Replaces(feed, latest, item);
    next := if replace then latest.Set(item.currency, item.price) else latest;
  }

  /**
   * What the loop's result means: one price per currency of the feed, each
   * the price of some observation of that currency, and the price of the
   * latest one whenever that currency's prices are nonzero and distinct.
   */
  lemma AggregateMeaning(feed: seq<PriceObservation>)
    ensures var latest := Aggregate(feed);
      && (forall c :: c in latest.prices <==> Observed(feed, |feed|, c))
      && (forall c :: c in latest.prices ==>
            exists i :: 0 <= i < |feed| && IsObservationOf(feed[i], c, latest.prices[c]))
      && (forall c :: c in latest.prices && DistinctNonzeroPrices(feed, c) ==>
            exists k: nat :: IsLatest(feed, c, |feed|, k) && latest.prices[c] == feed[k].price)
  {
    var latest := Aggregate(feed);
    AggregateKeys(feed, |feed|);
    AggregateFromFeed(feed, |feed|);
    forall c | c in latest.prices && DistinctNonzeroPrices(feed, c)
      ensures exists k: nat :: IsLatest(feed, c, |feed|, k) && latest.prices[c] == feed[k].price
    {
      LatestWins(feed, c, |feed|);
      LatestBeforeIsLatest(feed, c, |feed|);
      var k := LatestBefore(feed, c, |feed|);
      assert k.Some?;
    }
  }

  /** One iteration adds the item's currency and touches no other. */
  lemma StepFrame(feed: seq<PriceObservation>, m: PriceMap, item: PriceObservation)
    requires m.Valid()
    ensures item.currency in Step(feed, m, item).prices
    ensures forall c :: c != item.currency ==> Step(feed, m, item).Get(c) == m.Get(c)
  {
  }

  /** Some of the first `n` observations is of currency `c`. */
  ghost predicate Observed(feed: seq<PriceObservation>, n: nat, c: string)
    requires n <= |feed|
  {
    exists i :: 0 <= i < n && feed[i].currency == c
  }

  /** Exactly the currencies of the first `n` observations are keys. */
  lemma {:induction false} AggregateKeys(feed: seq<PriceObservation>, n: nat)
    requires n <= |feed|
    ensures forall c :: c in AggregatePrefix(feed, n).prices <==> Observed(feed, n, c)
  {
    if n > 0 {
      AggregateKeys(feed, n - 1);
      var m, item := AggregatePrefix(feed, n - 1), feed[n - 1];
      StepFrame(feed, m, item);
      forall c ensures c in AggregatePrefix(feed, n).prices <==> Observed(feed, n, c) {
        if c == item.currency {
          assert feed[n - 1].currency == c;
        } else {
          assert Observed(feed, n, c) <==> Observed(feed, n - 1, c);
          assert AggregatePrefix(feed, n).Get(c) == m.Get(c);
        }
      }
    }
  }

  /** Every stored price is the price of some observation of that currency. */
  lemma {:induction false} AggregateFromFeed(feed: seq<PriceObservation>, n: nat)
    requires n <= |feed|
    ensures forall c :: c in AggregatePrefix(feed, n).prices ==>
      exists i :: 0 <= i < n && IsObservationOf(feed[i], c, AggregatePrefix(feed, n).prices[c])
  {
    if n > 0 {
      AggregateFromFeed(feed, n - 1);
      var m := AggregatePrefix(feed, n - 1);
      var r := AggregatePrefix(feed, n);
      forall c | c in r.prices
        ensures exists i :: 0 <= i < n && IsObservationOf(feed[i], c, r.prices[c])
      {
        if r.Get(c) == m.Get(c) {
          var i :| 0 <= i < n - 1 && IsObservationOf(feed[i], c, m.prices[c]);
        } else {
          assert IsObservationOf(feed[n - 1], c, r.prices[c]);
        }
      }
    }
  }

  /**
   * `k` is the latest observation of `c` among the first `n`: no observation
   * of `c` is dated later, and every earlier one is dated strictly before.
   */
  ghost predicate IsLatest(feed: seq<PriceObservation>, c: string, n: nat, k: nat) {
    && k < n <= |feed|
    && feed[k].currency == c
    && forall j :: 0 <= j < n && feed[j].currency == c ==>
         feed[j].date <= feed[k].date && (j < k ==> feed[j].date < feed[k].date)
  }

  /**
   * Reference reduction: one pass that keeps the index with the greatest
   * date (the first one on a tie). `LatestBeforeIsLatest` says what it finds.
   */
  function LatestBefore(feed: seq<PriceObservation>, c: string, n: nat): (r: Option<nat>)
    requires n <= |feed|
    ensures r.Some? ==> r.value < n && feed[r.value].currency == c
    decreases n
  {
    if n == 0 then None
    else
      var prev := LatestBefore(feed, c, n - 1);
      if feed[n - 1].currency != c then prev
      else if prev.None? then Some(n - 1)
      else if feed[n - 1].date > feed[prev.value].date then Some(n - 1)
      else prev
  }

  /** The reference finds the latest observation of `c`, and finds none only when there is none. */
  lemma {:induction false} LatestBeforeIsLatest(feed: seq<PriceObservation>, c: string, n: nat)
    requires n <= |feed|
    ensures LatestBefore(feed, c, n).None? <==> !Observed(feed, n, c)
    ensures LatestBefore(feed, c, n).Some? ==> IsLatest(feed, c, n, LatestBefore(feed, c, n).value)
  {
    if n > 0 {
      LatestBeforeIsLatest(feed, c, n - 1);
      if feed[n - 1].currency == c {
        assert Observed(feed, n, c) by { assert feed[n - 1].currency == c; }
      } else {
        assert Observed(feed, n, c) <==> Observed(feed, n - 1, c);
      }
    }
  }

  /** The observed prices of `c` are nonzero and pairwise distinct. */
  ghost predicate DistinctNonzeroPrices(feed: seq<PriceObservation>, c: string) {
    forall i, j :: 0 <= i < |feed| && 0 <= j < |feed| && feed[i].currency == c && feed[j].currency == c ==>
      feed[i].price != 0.0 && (i != j ==> feed[i].price != feed[j].price)
  }

  /**
   * When the prices of `c` are nonzero and pairwise distinct, the loop keeps
   * the price of the latest observation of `c`, as the reference does.
   */
  lemma {:induction false} LatestWins(feed: seq<PriceObservation>, c: string, n: nat)
    requires n <= |feed|
    requires DistinctNonzeroPrices(feed, c)
    ensures AggregatePrefix(feed, n).Get(c) == PriceAt(feed, LatestBefore(feed, c, n))
  {
    if n > 0 {
      LatestWins(feed, c, n - 1);
      LatestStep(feed, c, AggregatePrefix(feed, n - 1), n);
    }
  }

  /** The price of the observation at an optional index. */
  function PriceAt(feed: seq<PriceObservation>, k: Option<nat>): Option<real>
    requires k.Some? ==> k.value < |feed|
  {
    if k.Some? then Some(feed[k.value].price) else None
  }

  /** One iteration takes a map that agrees with the reference on `c` to one that still does. */
  lemma LatestStep(feed: seq<PriceObservation>, c: string, m: PriceMap, n: nat)
    requires 0 < n <= |feed| && m.Valid()
    requires DistinctNonzeroPrices(feed, c)
    requires m.Get(c) == PriceAt(feed, LatestBefore(feed, c, n - 1))
    ensures Step(feed, m, feed[n - 1]).Get(c) == PriceAt(feed, LatestBefore(feed, c, n))
  {
    var item, prev := feed[n - 1], LatestBefore(feed, c, n - 1);
    StepGet(feed, m, item, c);
    if item.currency == c && prev.Some? {
      var k := prev.value;
      assert feed[k].price != 0.0;
      FindsOnlyItself(feed, c, k);
      ReplacesStored(feed, m, item, k);
    }
  }

  /** A nonzero stored price that is found again at `k` is replaced by a strictly later item. */
  lemma ReplacesStored(feed: seq<PriceObservation>, m: PriceMap, item: PriceObservation, k: nat)
    requires k < |feed| && feed[k].price != 0.0
    requires m.Get(item.currency) == Some(feed[k].price)
    requires Find(feed, item.currency, feed[k].price) == Some(k)
    ensures Replaces(feed, m, item) == (item.date > feed[k].date)
  {
  }

  /** What one iteration does to the price of `c`. */
  lemma StepGet(feed: seq<PriceObservation>, m: PriceMap, item: PriceObservation, c: string)
    requires m.Valid()
    ensures Step(feed, m, item).Get(c) ==
      if c == item.currency && Replaces(feed, m, item) then Some(item.price) else m.Get(c)
  {
  }

  /** With distinct prices, looking a stored price up again finds the observation it came from. */
  lemma FindsOnlyItself(feed: seq<PriceObservation>, c: string, k: nat)
    requires DistinctNonzeroPrices(feed, c)
    requires k < |feed| && feed[k].currency == c
    ensures Find(feed, c, feed[k].price) == Some(k)
  {
    assert IsObservationOf(feed[k], c, feed[k].price);
  }

  /** A stored price of 0 is falsy, so an older observation overwrites it. */
  lemma ZeroPriceIsOverwritten()
    ensures var feed := [PriceObservation("ETH", 2, 0.0), PriceObservation("ETH", 1, 7.0)];
      && LatestBefore(feed, "ETH", 2) == Some(0)
      && Aggregate(feed).Get("ETH") == Some(7.0)
  {
    var feed := [PriceObservation("ETH", 2, 0.0), PriceObservation("ETH", 1, 7.0)];
    assert AggregatePrefix(feed, 1) == PriceMap(["ETH"], map["ETH" := 0.0]);
  }

  /**
   * A repeated price is looked up at its first, older occurrence, so an
   * observation dated in between wins although it is not the latest.
   */
  lemma RepeatedPriceIsMisdated()
    ensures var feed := [PriceObservation("ETH", 1, 5.0), PriceObservation("ETH", 3, 5.0), PriceObservation("ETH", 2, 7.0)];
      && LatestBefore(feed, "ETH", 3) == Some(1)
      && Aggregate(feed).Get("ETH") == Some(7.0)
  {
    var feed := [PriceObservation("ETH", 1, 5.0), PriceObservation("ETH", 3, 5.0), PriceObservation("ETH", 2, 7.0)];
    assert Find(feed, "ETH", 5.0) == Some(0);
    assert AggregatePrefix(feed, 1) == PriceMap(["ETH"], map["ETH" := 5.0]);
    assert AggregatePrefix(feed, 2) == PriceMap(["ETH"], map["ETH" := 5.0]);
  }
}
