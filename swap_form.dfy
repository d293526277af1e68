/**
 * The swap form's state machine: the exchange rate, the recompute effect
 * that keeps the non-edited amount in step with the edited one, and the
 * event handlers. Each handler changes the state as the source's setters do
 * and is followed by one run of the effect.
 */
module SwapForm {
  import opened Wrappers
  import opened Prices
  import opened Catalog
  import opened Selector

  /** `lastEditedField`: which amount the user typed into last. */
  datatype Field = From | To

  /** The component's state, without loading flags, error text and slippage. */
  datatype FormState = FormState(
    tokens: seq<Token>,
    fromToken: Option<Token>,
    toToken: Option<Token>,
    fromAmount: string,
    toAmount: string,
    lastEdited: Field)

  /**
   * The number formatting the form relies on and does not define:
   * `parseFloat`, `toFixed(6)` and `Number.prototype.toString`.
   */
  datatype Numbers = Numbers(parse: string -> real, fixed6: real -> string, show: real -> string)

  const Initial := FormState([], None, None, "", "", From)

  /** A price that is present and not 0 (a truthy `price`). */
  predicate Priced(t: Token) {
    t.price.Some? && t.price.value != 0.0
  }

  /** `calculateExchangeRate`: how many `to` tokens one `from` token buys. */
  function ExchangeRate(from: Token, to: Token): (r: real)
    ensures !Priced(from) || !Priced(to) ==> r == 1.0
    ensures Priced(from) && Priced(to) ==> r * to.price.value == from.price.value
  {
    if !Priced(from) || !Priced(to) then 1.0 else from.price.value / to.price.value
  }

  /** For priced tokens, the rates in the two directions are reciprocal. */
  lemma RateReciprocal(a: Token, b: Token)
    requires Priced(a) && Priced(b)
    ensures ExchangeRate(a, b) * ExchangeRate(b, a) == 1.0
  {
    var x, y := a.price.value, b.price.value;
    var r, s := ExchangeRate(a, b), ExchangeRate(b, a);
    assert r * y == x && s * x == y;
    assert (r * s) * x == r * (s * x) == r * y == x;
    assert (r * s - 1.0) * x == 0.0;
  }

  /** `(parseFloat(amount) * rate).toFixed(6)` */
  function Scaled(num: Numbers, amount: string, rate: real): (r: string)
    ensures rate == 1.0 ==> r == num.fixed6(num.parse(amount))
    ensures num.parse(amount) == 0.0 || rate == 0.0 ==> r == num.fixed6(0.0)
  {
    num.fixed6(num.parse(amount) * rate)
  }

  /** The amount the user edited last, and the one the effect writes. */
  function EditedAmount(s: FormState): string {
    if s.lastEdited == From then s.fromAmount else s.toAmount
  }

  function DependentAmount(s: FormState): string {
    if s.lastEdited == From then s.toAmount else s.fromAmount
  }

  /** Both sides chosen and the edited amount non-empty: the effect has work to do. */
  predicate Ready(s: FormState) {
    s.fromToken.Some? && s.toToken.Some? && EditedAmount(s) != ""
  }

  /** The effect's value for the dependent amount: the edited amount at the edited-to-other rate. */
  function Converted(s: FormState, num: Numbers): string
    requires Ready(s)
  {
    if s.lastEdited == From then Scaled(num, s.fromAmount, ExchangeRate(s.fromToken.value, s.toToken.value))
    else Scaled(num, s.toAmount, ExchangeRate(s.toToken.value, s.fromToken.value))
  }

  /** One run of the recompute effect. */
  function Recomputed(s: FormState, num: Numbers): (r: FormState)
    ensures r.tokens == s.tokens && r.fromToken == s.fromToken && r.toToken == s.toToken
    ensures r.lastEdited == s.lastEdited && EditedAmount(r) == EditedAmount(s)
    ensures Ready(s) ==> DependentAmount(r) == Converted(s, num)
    ensures !Ready(s) ==> r == s
  {
    if s.fromToken.Some? && s.toToken.Some? && s.fromAmount != "" && s.lastEdited == From then
      s.(toAmount := Scaled(num, s.fromAmount, ExchangeRate(s.fromToken.value, s.toToken.value)))
    else if s.fromToken.Some? && s.toToken.Some? && s.toAmount != "" && s.lastEdited == To then
      s.(fromAmount := Scaled(num, s.toAmount, ExchangeRate(s.toToken.value, s.fromToken.value)))
    else
      s
  }

  /** The effect reaches a fixpoint after one run: a second run changes nothing. */
  lemma RecomputeIdempotent(s: FormState, num: Numbers)
    ensures Recomputed(Recomputed(s, num), num) == Recomputed(s, num)
  {
  }

  /** `handleSwapTokens`: both tokens and both amounts change sides at once. */
  function Swapped(s: FormState): (r: FormState)
    ensures r.tokens == s.tokens && r.lastEdited == s.lastEdited
    ensures r.fromToken == s.toToken && r.toToken == s.fromToken
    ensures r.fromAmount == s.toAmount && r.toAmount == s.fromAmount
  {
    s.(fromToken := s.toToken, toToken := s.fromToken, fromAmount := s.toAmount, toAmount := s.fromAmount)
  }

  /** Swapping twice restores the state. */
  lemma SwapInvolution(s: FormState)
    ensures Swapped(Swapped(s)) == s
  {
  }

  /**
   * After a swap and the effect that follows it, the amount that moved to
   * the edited side is the one that was on the other side, unchanged.
   */
  lemma SwapKeepsMovedAmount(s: FormState, num: Numbers)
    ensures EditedAmount(Recomputed(Swapped(s), num)) == DependentAmount(s)
  {
  }

  /** The amount `onChange` handlers. */
  function FromEdited(s: FormState, text: string): (r: FormState)
    ensures r.fromAmount == text && r.lastEdited == From && EditedAmount(r) == text
    ensures r.tokens == s.tokens && r.fromToken == s.fromToken && r.toToken == s.toToken && r.toAmount == s.toAmount
  {
    s.(fromAmount := text, lastEdited := From)
  }

  function ToEdited(s: FormState, text: string): (r: FormState)
    ensures r.toAmount == text && r.lastEdited == To && EditedAmount(r) == text
    ensures r.tokens == s.tokens && r.fromToken == s.fromToken && r.toToken == s.toToken && r.fromAmount == s.fromAmount
  {
    s.(toAmount := text, lastEdited := To)
  }

  /** What the user typed survives the effect, which writes only the other side. */
  lemma EditSurvives(s: FormState, text: string, num: Numbers)
    ensures Recomputed(FromEdited(s, text), num).fromAmount == text
    ensures Recomputed(ToEdited(s, text), num).toAmount == text
    ensures Recomputed(FromEdited(s, text), num).lastEdited == From
    ensures Recomputed(ToEdited(s, text), num).lastEdited == To
  {
  }

  /** `fromToken?.balance` is truthy: a chosen token with a nonzero balance. */
  predicate HasBalance(s: FormState) {
    s.fromToken.Some? && s.fromToken.value.balance.Some? && s.fromToken.value.balance.value != 0.0
  }

  /** `handleMaxClick` */
  function MaxClicked(s: FormState, num: Numbers): (r: FormState)
    ensures HasBalance(s) ==> r == FromEdited(s, num.show(s.fromToken.value.balance.value))
    ensures !HasBalance(s) ==> r == s
  {
    if HasBalance(s) then s.(fromAmount := num.show(s.fromToken.value.balance.value), lastEdited := From)
    else s
  }

  /** The guard of `handleSwap`: both sides chosen and a non-empty `from` amount. */
  predicate CanSubmit(s: FormState)
    ensures CanSubmit(s) <==> Ready(s.(lastEdited := From))
  {
    s.fromToken.Some? && s.toToken.Some? && s.fromAmount != ""
  }

  /** The reset at the end of `handleSwap`. */
  function Cleared(s: FormState): (r: FormState)
    ensures r.fromAmount == "" && r.toAmount == "" && !CanSubmit(r)
    ensures r.tokens == s.tokens && r.fromToken == s.fromToken && r.toToken == s.toToken && r.lastEdited == s.lastEdited
  {
    s.(fromAmount := "", toAmount := "")
  }

  /** The effect leaves a cleared form as it is. */
  lemma ClearedIsSettled(s: FormState, num: Numbers)
    ensures Recomputed(Cleared(s), num) == Cleared(s)
  {
  }

  /** `setTokens` and the default selection of `fetchPrices`. */
  function Loaded(s: FormState, catalog: seq<Token>): (r: FormState)
    ensures r.tokens == catalog
    ensures r.fromToken == DefaultFrom(s.fromToken, catalog) && r.toToken == DefaultTo(s.toToken, catalog)
    ensures r.fromAmount == s.fromAmount && r.toAmount == s.toAmount && r.lastEdited == s.lastEdited
  {
    s.(tokens := catalog, fromToken := DefaultFrom(s.fromToken, catalog), toToken := DefaultTo(s.toToken, catalog))
  }

  const ExampleFeed := [
    PriceObservation("ETH", 20240101, 2000.0),
    PriceObservation("ETH", 20240102, 2200.0),
    PriceObservation("USDC", 20240101, 1.0)]

  /** The worked example, first step: ETH's later price wins. */
  lemma ExampleAggregate()
    ensures Aggregate(ExampleFeed) == PriceMap(["ETH", "USDC"], map["ETH" := 2200.0, "USDC" := 1.0])
  {
    var feed := ExampleFeed;
    var m1 := PriceMap(["ETH"], map["ETH" := 2000.0]);
    var m2 := PriceMap(["ETH"], map["ETH" := 2200.0]);
    assert AggregatePrefix(feed, 1) == m1;
    assert Find(feed, "ETH", 2000.0) == Some(0);
    assert Replaces(feed, m1, feed[1]);
    assert AggregatePrefix(feed, 2) == Step(feed, m1, feed[1]) == m2;
    assert Replaces(feed, m2, feed[2]);
    assert AggregatePrefix(feed, 3) == Step(feed, m2, feed[2]);
  }

  /** The worked example, second step: the catalog entries with their display names. */
  lemma ExampleEntries(balanceOf: string -> real)
    ensures Entries(TokenNames, PriceMap(["ETH", "USDC"], map["ETH" := 2200.0, "USDC" := 1.0]), balanceOf) == [
      Token("ETH", "Ethereum", Some(balanceOf("ETH")), Some(2200.0)),
      Token("USDC", "USD Coin", Some(balanceOf("USDC")), Some(1.0))]
  {
    assert TokenNames["ETH"] == "Ethereum";
    assert TokenNames["USDC"] == "USD Coin";
  }

  /** The worked example, last step: 2 ETH convert at 2200 USDC each. */
  lemma ExampleConversion(num: Numbers, eth: Token, usdc: Token)
    requires eth.price == Some(2200.0) && usdc.price == Some(1.0)
    ensures var s := FormState([eth, usdc], Some(eth), Some(usdc), "", "", From);
      Recomputed(FromEdited(s, "2"), num).toAmount == Scaled(num, "2", 2200.0)
  {
    assert ExchangeRate(eth, usdc) == 2200.0;
  }

  /** With no price on one side the rate falls back to 1, so the amount is copied across. */
  lemma MissingPriceExample(num: Numbers, from: Token, to: Token)
    requires to.price.None?
    ensures var s := FormState([from, to], Some(from), Some(to), "", "", From);
      Recomputed(FromEdited(s, "5"), num).toAmount == Scaled(num, "5", 1.0)
  {
  }

  /** The form component: its state fields, updated in place by the handlers. */
  class Form {
    var tokens: seq<Token>
    var fromToken: Option<Token>
    var toToken: Option<Token>
    var fromAmount: string
    var toAmount: string
    var lastEdited: Field
    const num: Numbers

    function State(): FormState
      reads this
    {
      FormState(tokens, fromToken, toToken, fromAmount, toAmount, lastEdited)
    }

    /**
     * The effect has nothing left to write. Every handler starts and ends
     * settled, so running the effect after a handler that changed none of
     * its dependencies changes nothing, as React would not run it then.
     */
    ghost predicate Settled()
      reads this
    {
      Recomputed(State(), num) == State()
    }

    constructor (num: Numbers)
      ensures State() == Initial && this.num == num
      ensures Settled()
    {
      tokens, fromToken, toToken := [], None, None;
      fromAmount, toAmount, lastEdited := "", "", From;
      this.num := num;
    }

    /** The recompute effect: writes only the amount that was not edited last. */
    method Recompute()
      modifies this
      ensures State() == Recomputed(old(State()), num)
      ensures Settled()
    {
      if Ready(State()) && lastEdited == From {
        var rate := ExchangeRate(fromToken.value, toToken.value);
        toAmount := Scaled(num, fromAmount, rate);
      } else if Ready(State()) && lastEdited == To {
        var rate := ExchangeRate(toToken.value, fromToken.value);
        fromAmount := Scaled(num, toAmount, rate);
      }
      RecomputeIdempotent(old(State()), num);
    }

    /**
     * `fetchPrices` after a successful fetch: aggregate the feed, build and
     * sort the catalog, install it and fill the empty sides.
     */
    method FetchPrices(feed: seq<PriceObservation>, balanceOf: string -> real)
      requires Settled()
      modifies this
      ensures multiset(tokens) == multiset(Entries(TokenNames, Aggregate(feed), balanceOf))
      ensures SortedByCap(tokens)
      ensures State() == Recomputed(Loaded(old(State()), tokens), num)
      ensures Settled()
    {
      var catalog := BuildCatalog(feed, TokenNames, balanceOf);
      ghost var before := State();
      tokens := catalog;
      fromToken, toToken := DefaultFrom(fromToken, catalog), DefaultTo(toToken, catalog);
      assert State() == Loaded(before, catalog);
      Recompute();
    }

    /** Picking the `from` token: entry `choice` of the picker's filtered list. */
    method SelectFromToken(term: string, choice: nat)
      requires Settled()
      requires choice < |FilterTokens(tokens, toToken, term)|
      modifies this
      ensures State() == Recomputed(old(State()).(fromToken := Some(old(FilterTokens(tokens, toToken, term))[choice])), num)
      ensures fromToken.Some? && fromToken.value in tokens && fromToken != toToken
      ensures Settled()
    {
      var offered := FilterTokens(tokens, toToken, term);
      assert offered[choice] in offered;
      fromToken := Some(offered[choice]);
      Recompute();
    }

    /** Picking the `to` token: entry `choice` of the picker's filtered list. */
    method SelectToToken(term: string, choice: nat)
      requires Settled()
      requires choice < |FilterTokens(tokens, fromToken, term)|
      modifies this
      ensures State() == Recomputed(old(State()).(toToken := Some(old(FilterTokens(tokens, fromToken, term))[choice])), num)
      ensures toToken.Some? && toToken.value in tokens && fromToken != toToken
      ensures Settled()
    {
      var offered := FilterTokens(tokens, fromToken, term);
      assert offered[choice] in offered;
      toToken := Some(offered[choice]);
      Recompute();
    }

    /** The `from` amount's `onChange`. */
    method EditFromAmount(text: string)
      requires Settled()
      modifies this
      ensures State() == Recomputed(FromEdited(old(State()), text), num)
      ensures fromAmount == text && lastEdited == From
      ensures Settled()
    {
      fromAmount := text;
      lastEdited := From;
      Recompute();
    }

    /** The `to` amount's `onChange`. */
    method EditToAmount(text: string)
      requires Settled()
      modifies this
      ensures State() == Recomputed(ToEdited(old(State()), text), num)
      ensures toAmount == text && lastEdited == To
      ensures Settled()
    {
      toAmount := text;
      lastEdited := To;
      Recompute();
    }

    /** `handleSwapTokens` */
    method SwapTokens()
      requires Settled()
      modifies this
      ensures State() == Recomputed(Swapped(old(State())), num)
      ensures fromToken == old(toToken) && toToken == old(fromToken)
      ensures EditedAmount(State()) == DependentAmount(old(State()))
      ensures Settled()
    {
      var tempToken := fromToken;
      var tempAmount := fromAmount;
      fromToken := toToken;
      toToken := tempToken;
      fromAmount := toAmount;
      toAmount := tempAmount;
      Recompute();
    }

    /** `handleMaxClick` */
    method MaxClick()
      requires Settled()
      modifies this
      ensures State() == Recomputed(MaxClicked(old(State()), num), num)
      ensures Settled()
    {
      if HasBalance(State()) {
        fromAmount := num.show(fromToken.value.balance.value);
        lastEdited := From;
      }
      Recompute();
    }

    /** `handleSwap`: refuses an incomplete form, otherwise clears both amounts. */
    method Submit() returns (accepted: bool)
      requires Settled()
      modifies this
      ensures accepted == CanSubmit(old(State()))
      ensures State() == Recomputed(if accepted then Cleared(old(State())) else old(State()), num)
      ensures accepted ==> fromAmount == "" && toAmount == ""
      ensures Settled()
    {
      accepted := CanSubmit(State());
      if accepted {
        fromAmount := "";
        toAmount := "";
      }
      Recompute();
    }
  }
}
