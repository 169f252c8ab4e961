/**
 * The page component's state and its two asynchronous operations, written
 * step by step: each awaited call appends to the call trace, each early
 * return leaves the rest undone, and the `finally` clears the loading flag.
 */
module HomePage {
  import opened Wrappers
  import opened JsValues
  import opened Supply
  import opened Transaction

  class Home {
    /** Whole-token supply on display (`totalSupply`). */
    var totalSupply: int
    /** The amount input (`amount`). */
    var amount: Amount
    /** Whether a provider has been set (`provider` is not null). */
    var hasProvider: bool
    /** The spinner flag (`isLoading`). */
    var isLoading: bool
    /** Every call made to the provider or the contract, in order. */
    var calls: seq<ChainCall>
    /** The configured chain id (`NEXT_PUBLIC_SEPOLIA_CHAIN_ID`), possibly undefined. */
    const configuredChainId: Option<string>

    /** The initial state: supply 0, amount the number 0, not loading. */
    constructor (hasProvider: bool, configuredChainId: Option<string>)
      ensures this.hasProvider == hasProvider && this.configuredChainId == configuredChainId
      ensures totalSupply == 0 && amount == InitialZero && !isLoading && calls == []
    {
      this.hasProvider := hasProvider;
      this.configuredChainId := configuredChainId;
      totalSupply := 0;
      amount := InitialZero;
      isLoading := false;
      calls := [];
    }

    /** The input's change handler: the amount becomes the input's text. */
    method SetAmount(text: string)
      modifies this`amount
      ensures amount == Text(text)
    {
      amount := Text(text);
    }

    /**
     * Read the raw supply and store it scaled to whole tokens, or 0 when the
     * read throws; without a provider nothing happens.
     */
    method CalculateTotalSupply(read: SupplyRead)
      modifies this`totalSupply, this`calls
      ensures !hasProvider ==> totalSupply == old(totalSupply) && calls == old(calls)
      ensures hasProvider ==> calls == old(calls) + [GetTotalSupply]
      ensures hasProvider && read.ReadFailed? ==> totalSupply == 0
      ensures hasProvider && read.Raw? && read.value >= 0 ==>
        0 <= totalSupply && totalSupply * UnitsPerToken <= read.value < (totalSupply + 1) * UnitsPerToken
      ensures hasProvider ==> totalSupply == StoredSupply(read)
    {
      if hasProvider {
        calls := calls + [GetTotalSupply];
        match read {
          case Raw(raw) =>
            totalSupply := ScaledSupply(raw);
          case ReadFailed =>
            totalSupply := 0;
        }
      }
    }

    /** Send one write and await its receipt; `ok` is false when either throws. */
    method SendAndWaitFor(write: ChainCall, answer: TxAnswer) returns (ok: bool)
      modifies this`calls
      ensures calls == old(calls) + SendAndWait(write, answer).calls
      ensures ok == SendAndWait(write, answer).ok
    {
      calls := calls + [write];
      if answer == SendFailed {
        return false;
      }
      calls := calls + [WaitForReceipt];
      ok := answer == Confirmed;
    }

    /**
     * The handler's `try` block with its `catch`: the checks in order, each
     * with its early return, then the dispatch and the supply refresh.
     */
    method TryTransaction(txType: string, env: Environment) returns (outcome: Outcome)
      requires isLoading
      modifies this`calls, this`totalSupply
      ensures var run := Handle(amount, hasProvider, configuredChainId, env, txType);
        outcome == run.outcome && calls == old(calls) + run.calls &&
        totalSupply == (if run.supply.Some? then run.supply.value else old(totalSupply))
    {
      if AmountRejected(amount) {
        return AlertAmount;
      }
      if !hasProvider {
        // provider.getNetwork() on null throws a TypeError
        return AlertGeneric;
      }
      calls := calls + [GetNetwork];
      if env.network.None? {
        return AlertGeneric;
      }
      if !ChainIdMatches(env.network.value, configuredChainId) {
        return AlertNetwork;
      }
      calls := calls + [GetSigner(0)];
      if env.signer == SignerFailed {
        return AlertGeneric;
      }
      if env.signer == SignerMissing {
        return AlertSigner;
      }
      var parsed := env.parseUnitsWei(AmountText(amount));
      if parsed.None? {
        return AlertGeneric;
      }
      var ok := true;
      if txType == "deposit" {
        ok := SendAndWaitFor(DepositEth(parsed.value), env.depositAnswer);
      } else if txType == "redeem" {
        ok := SendAndWaitFor(RedeemEth(parsed.value), env.redeemAnswer);
      }
      if !ok {
        return AlertGeneric;
      }
      CalculateTotalSupply(env.supplyRead);
      outcome := Done;
    }

    /**
     * `handleTransaction(txType)`: set the loading flag, run the checks and
     * the dispatch, and clear the flag on every path.
     */
    method HandleTransaction(txType: string, env: Environment) returns (outcome: Outcome)
      modifies this
      ensures !isLoading
      ensures amount == old(amount) && hasProvider == old(hasProvider)
      ensures var run := Handle(old(amount), old(hasProvider), configuredChainId, env, txType);
        outcome == run.outcome && calls == old(calls) + run.calls &&
        totalSupply == (if run.supply.Some? then run.supply.value else old(totalSupply))
      ensures outcome != Done ==> totalSupply == old(totalSupply)
      ensures AmountRejected(old(amount)) ==> outcome == AlertAmount && calls == old(calls)
    {
      isLoading := true;
      outcome := TryTransaction(txType, env);
      isLoading := false;
      RefreshOnlyOnSuccess(amount, hasProvider, configuredChainId, env, txType);
      AmountCheckedFirst(amount, hasProvider, configuredChainId, env, txType);
    }
  }
}
