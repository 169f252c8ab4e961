/**
 * One run of the page's transaction handler, as a pure function of the
 * component state it reads and of the environment's answers: which alert
 * (if any) the user sees, which calls go out to the provider and the
 * contract, in order, and what total supply is stored afterwards.
 */
module Transaction {
  import opened Wrappers
  import opened JsValues
  import opened Supply

  /** Outbound calls, in the order the handler issues them. */
  datatype ChainCall =
    | GetNetwork              // provider.getNetwork()
    | GetSigner(index: nat)   // provider.getSigner(index)
    | DepositEth(value: int)  // contract.depositETH({ value })
    | RedeemEth(amount: int)  // contract.redeemETH(amount)
    | WaitForReceipt          // tx.wait()
    | GetTotalSupply          // contract.getTotalnUSDSupply()

  /** A state-changing contract call. */
  predicate IsWrite(c: ChainCall)
  {
    c.DepositEth? || c.RedeemEth?
  }

  /** What `provider.getSigner(0)` does: yields a signer, yields nothing, or throws. */
  datatype SignerAnswer = SignerReady | SignerMissing | SignerFailed

  /** How a contract write ends: the send throws, the wait throws, or it is mined. */
  datatype TxAnswer = SendFailed | ReceiptFailed | Confirmed

  /**
   * The answers of everything outside the page: the connected chain id
   * (None when `getNetwork` throws), the signer, the library's wei parser
   * (None when it throws), the two writes and the supply read.
   */
  datatype Environment = Environment(
    network: Option<nat>,
    signer: SignerAnswer,
    parseUnitsWei: string -> Option<int>,
    depositAnswer: TxAnswer,
    redeemAnswer: TxAnswer,
    supplyRead: SupplyRead)

  /** What the user is shown: one of the four alerts, or nothing. */
  datatype Outcome = AlertAmount | AlertNetwork | AlertSigner | AlertGeneric | Done

  /** The result of one handler run; `supply` is the value stored, if one is. */
  datatype Run = Run(outcome: Outcome, calls: seq<ChainCall>, supply: Option<int>)

  /** Calls issued by a write step, and whether it finished without throwing. */
  datatype Step = Step(calls: seq<ChainCall>, ok: bool)

  /**
   * `network.chainId.toString() === SEPOLIA_CHAIN_ID`. The configured id is
   * an environment variable and may be undefined, which no string equals.
   */
  predicate ChainIdMatches(chainId: nat, configured: Option<string>)
    ensures ChainIdMatches(chainId, configured) ==> configured.Some? && IsCanonical(configured.value)
  {
    configured.Some? && ToDecimal(chainId) == configured.value
  }

  /** The id check passes exactly when the configured text is the chain id in canonical decimal. */
  lemma ChainIdMatchesExactly(chainId: nat, configured: Option<string>)
    ensures ChainIdMatches(chainId, configured) <==>
      configured.Some? && IsCanonical(configured.value) && Value(configured.value) == chainId
  {
    ValueOfToDecimal(chainId);
    if configured.Some? && IsCanonical(configured.value) {
      ToDecimalOfValue(configured.value);
    }
  }

  /** A configured id with a leading zero, a sign or a hex prefix rejects every chain. */
  lemma NonCanonicalConfigRejectsAll(chainId: nat, configured: string)
    requires !IsCanonical(configured)
    ensures !ChainIdMatches(chainId, Some(configured))
  {
  }

  /** Send a write and await its receipt. */
  function SendAndWait(write: ChainCall, answer: TxAnswer): (step: Step)
    ensures |step.calls| >= 1 && step.calls[0] == write
    ensures step.calls[1..] == if answer == SendFailed then [] else [WaitForReceipt]
    ensures step.ok <==> answer == Confirmed
  {
    match answer
    case SendFailed => Step([write], false)
    case ReceiptFailed => Step([write, WaitForReceipt], false)
    case Confirmed => Step([write, WaitForReceipt], true)
  }

  /** Dispatch on the transaction type; any other type issues no write. */
  function Dispatch(txType: string, wei: int, env: Environment): (step: Step)
    ensures step.calls == ExpectedWrites(txType, wei) || !step.ok
    ensures step.calls == [] <==> txType != "deposit" && txType != "redeem"
    ensures step.calls != [] ==>
      step.calls[0] == (if txType == "deposit" then DepositEth(wei) else RedeemEth(wei))
    ensures step.ok <==>
      (txType == "deposit" ==> env.depositAnswer == Confirmed) &&
      (txType == "redeem" ==> env.redeemAnswer == Confirmed)
  {
    if txType == "deposit" then SendAndWait(DepositEth(wei), env.depositAnswer)
    else if txType == "redeem" then SendAndWait(RedeemEth(wei), env.redeemAnswer)
    else Step([], true)
  }

  /** The calls made once the amount, network and signer checks have all passed. */
  const Preamble: seq<ChainCall> := [GetNetwork, GetSigner(0)]

  /**
   * One run of the handler's `try` block and its `catch`. A null provider
   * makes `provider.getNetwork()` throw before any call is made. The
   * closing supply refresh catches the read's errors itself; the contract
   * object it builds outside its `try` uses the same address as the one the
   * write was just sent through, so that construction is taken not to throw.
   */
  function Handle(amount: Amount, hasProvider: bool, configured: Option<string>,
                  env: Environment, txType: string): (r: Run)
    ensures r.supply.Some? <==> r.outcome == Done
    ensures r.calls != [] ==> r.calls[0] == GetNetwork
    ensures |r.calls| >= 2 ==>
      r.calls[..2] == Preamble && env.network.Some? && ChainIdMatches(env.network.value, configured)
  {
    if AmountRejected(amount) then Run(AlertAmount, [], None)
    else if !hasProvider then Run(AlertGeneric, [], None)
    else if env.network.None? then Run(AlertGeneric, [GetNetwork], None)
    else if !ChainIdMatches(env.network.value, configured) then Run(AlertNetwork, [GetNetwork], None)
    else if env.signer == SignerFailed then Run(AlertGeneric, Preamble, None)
    else if env.signer == SignerMissing then Run(AlertSigner, Preamble, None)
    else match env.parseUnitsWei(AmountText(amount))
      case None => Run(AlertGeneric, Preamble, None)
      case Some(wei) =>
        var step := Dispatch(txType, wei, env);
        if !step.ok then Run(AlertGeneric, Preamble + step.calls, None)
        else Run(Done, Preamble + step.calls + [GetTotalSupply], Some(StoredSupply(env.supplyRead)))
  }

  /** Every check passed and the amount parsed. */
  predicate GatesPass(amount: Amount, hasProvider: bool, configured: Option<string>, env: Environment)
  {
    !AmountRejected(amount) && hasProvider && env.network.Some? &&
    ChainIdMatches(env.network.value, configured) && env.signer == SignerReady &&
    env.parseUnitsWei(AmountText(amount)).Some?
  }

  /** Number of contract writes in a call trace. */
  function WriteCount(calls: seq<ChainCall>): nat
  {
    if calls == [] then 0
    else (if IsWrite(calls[0]) then 1 else 0) + WriteCount(calls[1..])
  }

  lemma {:induction false} WriteCountAppend(a: seq<ChainCall>, b: seq<ChainCall>)
    ensures WriteCount(a + b) == WriteCount(a) + WriteCount(b)
    decreases |a|
  {
    if a == [] {
      assert a + b == b;
    } else {
      WriteCountAppend(a[1..], b);
      assert (a + b)[1..] == a[1..] + b;
    }
  }

  lemma {:induction false} NoWriteNoCount(calls: seq<ChainCall>)
    requires forall i :: 0 <= i < |calls| ==> !IsWrite(calls[i])
    ensures WriteCount(calls) == 0
    decreases |calls|
  {
    if calls != [] {
      NoWriteNoCount(calls[1..]);
    }
  }

  /** A write step issues exactly one write for the two known types, none otherwise. */
  lemma DispatchWrites(txType: string, wei: int, env: Environment)
    ensures WriteCount(Dispatch(txType, wei, env).calls) ==
      (if txType == "deposit" || txType == "redeem" then 1 else 0)
  {
    var calls := Dispatch(txType, wei, env).calls;
    if calls != [] {
      NoWriteNoCount(calls[1..]);
    }
  }

  /** The amount is checked first: a falsy amount is refused before any call, and only it gets that alert. */
  lemma AmountCheckedFirst(amount: Amount, hasProvider: bool, configured: Option<string>,
                           env: Environment, txType: string)
    ensures var r := Handle(amount, hasProvider, configured, env, txType);
      (r.outcome == AlertAmount <==> AmountRejected(amount)) &&
      (AmountRejected(amount) ==> r.calls == [] && r.supply == None)
  {
  }

  /** "0" and "-1" are not falsy, so they get past the amount check. */
  lemma ZeroAndNegativeTextPass(hasProvider: bool, configured: Option<string>,
                                env: Environment, txType: string)
    ensures Handle(Text("0"), hasProvider, configured, env, txType).outcome != AlertAmount
    ensures Handle(Text("-1"), hasProvider, configured, env, txType).outcome != AlertAmount
  {
  }

  /** A wrong chain gets the network alert after one getNetwork call: no signer request, no write. */
  lemma WrongNetworkBlocks(amount: Amount, hasProvider: bool, configured: Option<string>,
                           env: Environment, txType: string)
    ensures var r := Handle(amount, hasProvider, configured, env, txType);
      r.outcome == AlertNetwork <==>
        !AmountRejected(amount) && hasProvider && env.network.Some? &&
        !ChainIdMatches(env.network.value, configured)
    ensures var r := Handle(amount, hasProvider, configured, env, txType);
      r.outcome == AlertNetwork ==> r.calls == [GetNetwork] && r.supply == None
  {
  }

  /** The signer alert comes only after the amount and network checks pass. */
  lemma MissingSignerBlocks(amount: Amount, hasProvider: bool, configured: Option<string>,
                            env: Environment, txType: string)
    ensures var r := Handle(amount, hasProvider, configured, env, txType);
      r.outcome == AlertSigner <==>
        !AmountRejected(amount) && hasProvider && env.network.Some? &&
        ChainIdMatches(env.network.value, configured) && env.signer == SignerMissing
    ensures var r := Handle(amount, hasProvider, configured, env, txType);
      r.outcome == AlertSigner ==> r.calls == Preamble && r.supply == None
  {
  }

  /**
   * No contract write is issued unless every check passes, and then the
   * trace starts with the network and signer requests, in that order.
   */
  lemma WriteOnlyAfterChecks(amount: Amount, hasProvider: bool, configured: Option<string>,
                             env: Environment, txType: string)
    ensures var r := Handle(amount, hasProvider, configured, env, txType);
      WriteCount(r.calls) > 0 ==>
        GatesPass(amount, hasProvider, configured, env) && r.calls[..2] == Preamble
  {
  }

  /** The writes a successful run of each transaction type records. */
  function ExpectedWrites(txType: string, wei: int): seq<ChainCall>
  {
    if txType == "deposit" then [DepositEth(wei), WaitForReceipt]
    else if txType == "redeem" then [RedeemEth(wei), WaitForReceipt]
    else []
  }

  /**
   * A run ends without an alert exactly when every check passes and the
   * write (if any) is confirmed.
   */
  lemma DoneExactlyWhenConfirmed(amount: Amount, hasProvider: bool, configured: Option<string>,
                                 env: Environment, txType: string)
    ensures Handle(amount, hasProvider, configured, env, txType).outcome == Done <==>
      GatesPass(amount, hasProvider, configured, env) &&
      (txType == "deposit" ==> env.depositAnswer == Confirmed) &&
      (txType == "redeem" ==> env.redeemAnswer == Confirmed)
  {
  }

  /**
   * A successful run records the network and signer requests, exactly one
   * awaited write carrying the parsed amount (none for an unknown type),
   * then the supply read, and stores the scaled supply.
   */
  lemma SuccessfulRunTrace(amount: Amount, hasProvider: bool, configured: Option<string>,
                           env: Environment, txType: string)
    requires Handle(amount, hasProvider, configured, env, txType).outcome == Done
    ensures var r := Handle(amount, hasProvider, configured, env, txType);
      var wei := env.parseUnitsWei(AmountText(amount)).value;
      r.calls == Preamble + ExpectedWrites(txType, wei) + [GetTotalSupply] &&
      r.supply == Some(StoredSupply(env.supplyRead))
    ensures WriteCount(Handle(amount, hasProvider, configured, env, txType).calls) ==
      (if txType == "deposit" || txType == "redeem" then 1 else 0)
  {
    var wei := env.parseUnitsWei(AmountText(amount)).value;
    var step := Dispatch(txType, wei, env);
    assert step.calls == ExpectedWrites(txType, wei);
    WriteCountAppend(Preamble, step.calls);
    WriteCountAppend(Preamble + step.calls, [GetTotalSupply]);
    NoWriteNoCount(Preamble);
    NoWriteNoCount([GetTotalSupply]);
    DispatchWrites(txType, wei, env);
  }

  /**
   * The supply is read and stored only after a run that finished without
   * throwing; early returns and the catch path never refresh it.
   */
  lemma RefreshOnlyOnSuccess(amount: Amount, hasProvider: bool, configured: Option<string>,
                             env: Environment, txType: string)
    ensures var r := Handle(amount, hasProvider, configured, env, txType);
      (r.supply.Some? <==> r.outcome == Done) &&
      (GetTotalSupply in r.calls <==> r.outcome == Done)
  {
  }

  /**
   * Every thrown error ends in the one generic alert: a missing provider,
   * a failed network or signer request, an amount the wei parser refuses,
   * a rejected send or a failed wait.
   */
  lemma ThrowsGiveGenericAlert(amount: Amount, hasProvider: bool, configured: Option<string>,
                               env: Environment, txType: string)
    ensures Handle(amount, hasProvider, configured, env, txType).outcome == AlertGeneric <==>
      !AmountRejected(amount) &&
      (!hasProvider || env.network.None? ||
       (ChainIdMatches(env.network.value, configured) &&
        (env.signer == SignerFailed ||
         (env.signer == SignerReady &&
          (env.parseUnitsWei(AmountText(amount)).None? ||
           (txType == "deposit" && env.depositAnswer != Confirmed) ||
           (txType == "redeem" && env.redeemAnswer != Confirmed))))))
  {
  }

  /** No retry: whatever happens, a run issues at most one contract write. */
  lemma {:induction false} AtMostOneWrite(amount: Amount, hasProvider: bool, configured: Option<string>,
                                          env: Environment, txType: string)
    ensures WriteCount(Handle(amount, hasProvider, configured, env, txType).calls) <= 1
  {
    var r := Handle(amount, hasProvider, configured, env, txType);
    if GatesPass(amount, hasProvider, configured, env) {
      var wei := env.parseUnitsWei(AmountText(amount)).value;
      var step := Dispatch(txType, wei, env);
      DispatchWrites(txType, wei, env);
      WriteCountAppend(Preamble, step.calls);
      NoWriteNoCount(Preamble);
      if step.ok {
        WriteCountAppend(Preamble + step.calls, [GetTotalSupply]);
        NoWriteNoCount([GetTotalSupply]);
      }
    } else {
      NoWriteNoCount(r.calls);
    }
  }
}
