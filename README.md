# nUSD stable-coin page: transaction handler and supply display

This project models the logic of the nUSD stable-coin front end's single page
(`pages/index.js`). The page holds four pieces of state: the displayed total
supply, the amount typed by the user, the provider, and a loading flag.

It has two operations:

- **`handleTransaction(type)`** gates a deposit or a redeem behind three
  checks, each of which can end the run with an alert:
  1. the amount must be truthy;
  2. the connected chain id, printed as decimal text, must equal the
     configured id;
  3. a signer must be obtainable.

  The handler then parses the amount into wei. It calls `depositETH`, with
  the amount attached as value, or `redeemETH(amount)`, and awaits the
  transaction's receipt. Finally it refreshes the supply. Any thrown error
  becomes one generic alert, and the loading flag is cleared on every path.
- **`calculateTotalSupply()`** does nothing without a provider. Otherwise
  it reads the raw supply and stores it divided by 10^18 with BigInt
  truncating division. It stores 0 when the raw value is zero or the read
  throws.

The files are:

- `js_values.dfy` (`JsValues`): the JavaScript value rules the handler relies on.
  - The amount's truthiness. Because of operator precedence,
    `!amount > 0` means `(!amount) > 0`. So only the initial number 0 and
    the empty string are rejected, while "0" and "-1" pass.
  - The decimal text of a BigInt chain id, with both round trips between
    a number and its text proved.
- `supply.dfy` (`Supply`): the 10^18 scaling, with BigInt's division
  toward zero written out.
- `transaction.dfy` (`Transaction`): a run of the handler as a pure
  function `Handle`. It takes the amount, the provider flag, the
  configured chain id, the environment's answers and the transaction type.
  It returns the outcome shown to the user, the trace of outbound calls and
  the stored supply. Lemmas state the handler's properties against it.
- `home.dfy` (`HomePage.Home`): the component as a class with mutable
  fields. `HandleTransaction`, `TryTransaction` and `CalculateTotalSupply`
  are written step by step, and each is proved to produce exactly what
  `Handle` and `StoredSupply` specify.

Everything outside the page is a parameter. An `Environment` value gives:

- the chain id (or a thrown `getNetwork`);
- the signer answer (present, null, or thrown);
- the wei parser as a partial function;
- how each of the two writes ends (send throws, wait throws, or confirmed);
- the supply read (a raw value or a throw).

## Model

| member | source | states |
|---|---|---|
| JsValues.AmountRejected | pages/index.js:35-37 | the amount check rejects exactly the falsy amounts (initial number 0 or ""); every non-empty text, "0" and "-1" included, passes |
| JsValues.AmountText | pages/index.js:47 | `amount.toString()` before the wei parse: once the amount check has passed, the parsed text is the input's own non-empty text; characterised further by SuccessfulRunTrace |
| Transaction.ChainIdMatches | pages/index.js:39 | the chain id comparison can succeed only for a defined configured id in canonical decimal; characterised in both directions by ChainIdMatchesExactly |
| Transaction.SendAndWait | pages/index.js:57-63 | a send records the write first, then the wait unless the send threw; it succeeds if and only if the transaction is confirmed |
| Transaction.Dispatch | pages/index.js:56-64 | "deposit" sends depositETH and "redeem" sends redeemETH, each with the parsed amount; any other type sends nothing; the step succeeds if and only if the selected write is confirmed, and then its calls are the send and its wait; also DispatchWrites |
| Transaction.Handle | pages/index.js:34-69 | a supply is stored if and only if the run ends without an alert; any trace starts with getNetwork, and getSigner(0) is requested only after the chain id matched; characterised by AmountCheckedFirst, WrongNetworkBlocks, MissingSignerBlocks, WriteOnlyAfterChecks, ThrowsGiveGenericAlert, DoneExactlyWhenConfirmed, SuccessfulRunTrace, RefreshOnlyOnSuccess, AtMostOneWrite |
| JsValues.ToDecimal | pages/index.js:39 | `chainId.toString()` yields canonical decimal text: digits only, no leading zero, starting with '0' only for 0 |
| JsValues.ValueOfToDecimal | pages/index.js:39 | reading back the decimal text of a chain id gives the chain id |
| JsValues.ToDecimalOfValue | pages/index.js:39 | every canonical decimal text is the printed form of its value |
| JsValues.ToDecimalInjective | pages/index.js:39 | two chain ids print the same text if and only if they are equal |
| Transaction.ChainIdMatchesExactly | pages/index.js:38-41 | the network check passes if and only if the configured id is defined, is canonical decimal, and denotes the connected chain id |
| Transaction.NonCanonicalConfigRejectsAll | pages/index.js:39-40 | a configured id with a leading zero, a sign or a hex prefix rejects every chain |
| Transaction.AmountCheckedFirst | pages/index.js:35-37 | the amount alert is given if and only if the amount is falsy, and then no call is made and no supply is stored |
| Transaction.ZeroAndNegativeTextPass | pages/index.js:35-37 | the texts "0" and "-1" never get the amount alert |
| Transaction.WrongNetworkBlocks | pages/index.js:38-41 | the network alert is given if and only if the amount passes, a provider exists and the chain id differs; the only call made is getNetwork, so there is no signer request and no write |
| Transaction.MissingSignerBlocks | pages/index.js:42-45 | the signer alert is given if and only if the amount and network checks pass and no signer comes back; only getNetwork and getSigner(0) are called |
| Transaction.WriteOnlyAfterChecks | pages/index.js:35-65 | a contract write occurs only when all checks pass and the amount parses, and then the trace starts with getNetwork followed by getSigner(0) |
| Transaction.DispatchWrites | pages/index.js:56-64 | dispatch issues exactly one write for "deposit" or "redeem" and none for any other type |
| Transaction.DoneExactlyWhenConfirmed | pages/index.js:47-67 | a run ends without an alert if and only if all checks pass, the amount parses and the write for the given type is confirmed |
| Transaction.SuccessfulRunTrace | pages/index.js:56-67 | a successful run records getNetwork, getSigner(0), the write with the parsed amount (depositETH as value, redeemETH as argument), its wait, and then the supply read; it issues exactly one write for deposit or redeem and none otherwise, and stores the scaled supply |
| Transaction.RefreshOnlyOnSuccess | pages/index.js:67-69 | the supply is read and stored if and only if the run finished without an alert; early returns and the catch path never refresh it |
| Transaction.ThrowsGiveGenericAlert | pages/index.js:47-69 | the generic alert is given if and only if something threw: no provider, getNetwork, getSigner, the wei parse, the send or the wait |
| Transaction.AtMostOneWrite | pages/index.js:56-69 | no run issues more than one contract write, so there is no retry |
| Supply.TruncDiv | pages/index.js:86 | BigInt division rounds toward zero: the quotient's magnitude times the divisor is at most the dividend's magnitude and within one divisor of it |
| Supply.ScaledSupply | pages/index.js:86 | the stored supply is the whole number of 10^18 units in the raw supply, rounded toward zero |
| Supply.FalsyGuardAgrees | pages/index.js:86 | the `? … : 0` guard on a zero raw supply agrees with plain truncating division |
| Supply.WholeTokens | pages/index.js:86 | k whole tokens plus less than one token of smallest units display as k |
| Supply.SignSymmetric | pages/index.js:86 | negating the raw supply negates the displayed supply |
| Supply.Monotonic | pages/index.js:86 | a larger raw supply never displays as a smaller one |
| Supply.DivisionBounds | pages/index.js:86 | the BigInt quotient of a non-negative supply brackets it between consecutive multiples of the divisor |
| Supply.StoredSupply | pages/index.js:83-91 | a failed read stores 0; a non-negative raw supply stores the whole number of 10^18 units in it |
| HomePage.Home.constructor | pages/index.js:10-14 | initial state: supply 0, amount the number 0, not loading, no calls |
| HomePage.Home.SetAmount | pages/index.js:114 | typing into the input makes the amount that text |
| HomePage.Home.CalculateTotalSupply | pages/index.js:75-93 | without a provider, nothing changes; otherwise one supply read is recorded and the stored supply is the scaled raw value, or 0 when the read throws |
| HomePage.Home.SendAndWaitFor | pages/index.js:57-63 | a write is recorded; the wait is recorded only when the send did not throw; the call succeeds only when confirmed |
| HomePage.Home.TryTransaction | pages/index.js:34-69 | runs while loading; the outcome, the appended calls and the stored supply are those that `Handle` specifies |
| HomePage.Home.HandleTransaction | pages/index.js:32-73 | clears the loading flag on every path; it leaves the amount and provider unchanged and matches `Handle`; the supply changes only on success; a falsy amount gets the amount alert and makes no call |

## Left out

- Rendering, styling, the spinner and the button markup (pages/index.js:95-136) are presentation.
- Provider construction and wallet detection (pages/index.js:16-22) are not modelled. The provider is a constructor parameter, so the mount-time effect that recomputes the supply (pages/index.js:24-26) is not modelled either.
- `initializeContract` (pages/index.js:28-30), the ABI import and environment loading (pages/index.js:3-7) are library and configuration plumbing. The contract address is not modelled; the configured chain id is a constructor parameter, undefined allowed.
- `ethers.parseUnits(…, "wei")` is library code. It is a partial function supplied by the environment, and its failure takes the catch path.
- The answers of `getNetwork`, `getSigner`, the two writes, `tx.wait()` and the supply read are environment inputs. The model does not say why any of them throws.
- The `if (signer)` test at pages/index.js:49 is always true at that point, so it has no branch in the model.
- HomePage.Home.CalculateTotalSupply: the `Number(...)` conversion at pages/index.js:86 loses precision above 2^53. That is floating-point behaviour, and the stored supply is an unbounded integer instead.
- The alert texts and the `console.error` log are not modelled. Each alert is an `Outcome` tag.
- HomePage.Home.HandleTransaction: the model states the loading flag only on exit, and that the try block runs with it set. The spinner's intermediate renders are not modelled.
- Overlapping clicks are not modelled. The buttons stay enabled while a run is in flight, but interleaved runs are out of scope.
- The amount check refuses only falsy amounts; "0" and "-1" pass it (see `ZeroAndNegativeTextPass`) and reach the wei parse and the contract, which decide what happens to them.
