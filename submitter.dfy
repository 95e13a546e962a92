/**
 * TransactionSubmitter (`attemptFlushWithWallet`): one flush attempt by one
 * wallet. The chain calls it makes (gas estimate, fee quote, broadcast,
 * receipt, reward balance, claim) are inputs: `ChainReplies` records what
 * each would return or throw. From them follow the transaction options, the
 * outcome, the cost, the optional claim, and the counter updates.
 */
module Submitter {
  import opened Common
  import opened Text
  import opened WalletPool

  /** Wei in one ether: `parseEther('1')`. */
  const WeiPerEther: nat := 1_000_000_000_000_000_000

  /** Rewards strictly above `parseEther('1000')` are claimed after a successful flush. */
  const ClaimThreshold: nat := 1000 * WeiPerEther

  /** The gas limit is the estimate times 120 / 100, in integer (BigInt) arithmetic. */
  const GasLimitPercent: nat := 120

  /** Unrecognised error messages are reported cut to this many characters. */
  const ReasonLength: nat := 100

  /** What a BigInt times `null` throws: the cost when neither the receipt nor the quote has a gas price. */
  const MixedTypesMessage: string := "Cannot mix BigInt and other types, use explicit conversions"

  /** `provider.getFeeData()`; ethers leaves a field `null` when the node does not provide it. */
  datatype FeeData = FeeData(gasPrice: Option<nat>, maxFeePerGas: Option<nat>, maxPriorityFeePerGas: Option<nat>)

  /** The options passed to `flushEntryQueue`; there is no legacy `gasPrice` field. */
  datatype TxOptions = TxOptions(gasLimit: nat, maxFeePerGas: Option<nat>, maxPriorityFeePerGas: Option<nat>)

  /** `tx.wait()`: the status (`null` before Byzantium), the gas used and the effective gas price. */
  datatype Receipt = Receipt(status: Option<nat>, gasUsed: nat, gasPrice: Option<nat>)

  /**
   * What every chain call of one attempt returns or throws, in the order the
   * attempt makes them; a call the attempt never reaches is ignored.
   */
  datatype ChainReplies = ChainReplies(
    estimate: Call<nat>,
    feeData: Call<FeeData>,
    sent: Call<()>,
    receipt: Call<Receipt>,
    rewards: Call<nat>,
    claim: Call<()>)

  /** The reading of a caught error message. */
  datatype Reason = AlreadyFlushed | Replaced | OtherError(message: string)

  /** One counter update on the wallet pool. */
  datatype Tally = Succeeded | Failed

  /**
   * How the attempt ended: mined with status 1 (with its cost and whether
   * rewards were claimed), mined with another status, or an exception caught.
   */
  datatype Outcome = Flushed(cost: nat, claimed: bool) | Reverted | Caught(reason: Reason)

  /**
   * The attempt's return value, the counter updates in the order they are
   * made, the outcome, and the options broadcast (if it got that far).
   */
  datatype AttemptResult = AttemptResult(flushed: bool, tallies: seq<Tally>, outcome: Outcome, sent: Option<TxOptions>)

  /** JavaScript truthiness of a BigInt-or-null: `null` and `0n` are false. */
  predicate Truthy(v: Option<nat>)
  {
    v.Some? && v.value != 0
  }

  /**
   * The transaction options of an attempt: the gas estimate with a 20 %
   * margin, rounded down, and the two EIP-1559 fee fields copied from the
   * quote only when it has a (non-zero) `maxFeePerGas`.
   */
  function TxOptionsFor(gasEstimate: nat, feeData: FeeData): (opts: TxOptions)
    ensures opts.gasLimit * 100 <= gasEstimate * GasLimitPercent < opts.gasLimit * 100 + 100
    ensures gasEstimate <= opts.gasLimit
    ensures Truthy(feeData.maxFeePerGas) ==>
              opts.maxFeePerGas == feeData.maxFeePerGas && opts.maxPriorityFeePerGas == feeData.maxPriorityFeePerGas
    ensures !Truthy(feeData.maxFeePerGas) ==> opts.maxFeePerGas == None && opts.maxPriorityFeePerGas == None
  {
    var limit := gasEstimate * GasLimitPercent / 100;
    if Truthy(feeData.maxFeePerGas) then
      TxOptions(limit, feeData.maxFeePerGas, feeData.maxPriorityFeePerGas)
    else
      TxOptions(limit, None, None)
  }

  /** Builds `txOptions` as the attempt does: the gas limit first, then the fee fields if the quote has them. */
  method BuildTxOptions(gasEstimate: nat, feeData: FeeData) returns (opts: TxOptions)
    ensures opts == TxOptionsFor(gasEstimate, feeData)
    ensures opts.gasLimit * 100 <= gasEstimate * GasLimitPercent < opts.gasLimit * 100 + 100
  {
    opts := TxOptions(gasEstimate * GasLimitPercent / 100, None, None);
    if Truthy(feeData.maxFeePerGas) {
      opts := opts.(maxFeePerGas := feeData.maxFeePerGas);
      opts := opts.(maxPriorityFeePerGas := feeData.maxPriorityFeePerGas);
    }
  }

  /** `receipt.gasPrice || feeData.gasPrice`: the receipt's price unless it is null or zero. */
  function EffectiveGasPrice(receiptPrice: Option<nat>, quotedPrice: Option<nat>): (p: Option<nat>)
    ensures Truthy(receiptPrice) ==> p == receiptPrice
    ensures !Truthy(receiptPrice) ==> p == quotedPrice
  {
    if Truthy(receiptPrice) then receiptPrice else quotedPrice
  }

  /**
   * The catch block's reading of an error message: "execution reverted" or
   * "already flushed" means another operator flushed first; otherwise
   * "replacement fee too low" means a competing transaction replaced ours;
   * anything else is reported by its first 100 characters.
   */
  function Classify(message: string): (r: Reason)
    ensures r == AlreadyFlushed <==>
              (exists i: nat :: OccursAt(message, "execution reverted", i))
              || (exists i: nat :: OccursAt(message, "already flushed", i))
    ensures r == Replaced <==>
              r != AlreadyFlushed && exists i: nat :: OccursAt(message, "replacement fee too low", i)
    ensures r.OtherError? ==>
              && r.message <= message
              && |r.message| == (if |message| <= ReasonLength then |message| else ReasonLength)
  {
    ContainsIff(message, "execution reverted");
    ContainsIff(message, "already flushed");
    ContainsIff(message, "replacement fee too low");
    if Contains(message, "execution reverted") || Contains(message, "already flushed") then AlreadyFlushed
    else if Contains(message, "replacement fee too low") then Replaced
    else OtherError(Truncate(message, ReasonLength))
  }

  /** The catch block: classify the message, record one failure, return false. */
  function Catch(message: string, tallied: seq<Tally>, sent: Option<TxOptions>): (res: AttemptResult)
    ensures !res.flushed && res.tallies == tallied + [Failed]
    ensures res.outcome == Caught(Classify(message)) && res.sent == sent
    ensures |res.tallies| == |tallied| + 1 && res.tallies[|tallied|] == Failed
  {
    AttemptResult(false, tallied + [Failed], Caught(Classify(message)), sent)
  }

  /**
   * One attempt, call by call, as `attemptFlushWithWallet` runs it. A
   * successful flush is recorded before the reward check, so an error in the
   * reward query or the claim still records a failure and returns false.
   * Every attempt ends with either exactly one success or exactly one
   * failure as its last counter update.
   */
  function Attempt(r: ChainReplies): (res: AttemptResult)
    ensures res.flushed <==> res.tallies == [Succeeded]
    ensures !res.flushed ==> res.tallies == [Failed] || res.tallies == [Succeeded, Failed]
    ensures res.flushed <==> res.outcome.Flushed?
  {
    match r.estimate
    case Threw(m) => Catch(m, [], None)
    case Returned(gasEstimate) =>
      match r.feeData
      case Threw(m) => Catch(m, [], None)
      case Returned(feeData) =>
        var opts := TxOptionsFor(gasEstimate, feeData);
        match r.sent
        case Threw(m) => Catch(m, [], Some(opts))
        case Returned(_) =>
          match r.receipt
          case Threw(m) => Catch(m, [], Some(opts))
          case Returned(receipt) =>
            if receipt.status == Some(1) then
              match EffectiveGasPrice(receipt.gasPrice, feeData.gasPrice)
              case None => Catch(MixedTypesMessage, [], Some(opts))
              case Some(price) =>
                var cost := receipt.gasUsed * price;
                match r.rewards
                case Threw(m) => Catch(m, [Succeeded], Some(opts))
                case Returned(rewards) =>
                  if rewards > ClaimThreshold then
                    match r.claim
                    case Threw(m) => Catch(m, [Succeeded], Some(opts))
                    case Returned(_) => AttemptResult(true, [Succeeded], Flushed(cost, true), Some(opts))
                  else
                    AttemptResult(true, [Succeeded], Flushed(cost, false), Some(opts))
            else
              AttemptResult(false, [Failed], Reverted, Some(opts))
  }

  /** The receipt of an attempt that got as far as being mined. */
  predicate Mined(r: ChainReplies)
  {
    r.estimate.Returned? && r.feeData.Returned? && r.sent.Returned? && r.receipt.Returned?
  }

  /**
   * A mined transaction counts as a failure exactly when its status is not 1;
   * an attempt that flushed was mined with status 1 and its cost is the gas
   * used times the receipt's price, or the quote's when the receipt has none.
   */
  lemma FlushedMeansMinedWithStatusOne(r: ChainReplies)
    ensures Attempt(r).outcome == Reverted <==> Mined(r) && r.receipt.value.status != Some(1)
    ensures Attempt(r).flushed ==>
              && Mined(r) && r.receipt.value.status == Some(1)
              && var price := EffectiveGasPrice(r.receipt.value.gasPrice, r.feeData.value.gasPrice);
                 price.Some? && Attempt(r).outcome.cost == r.receipt.value.gasUsed * price.value
  {
  }

  /** Rewards are claimed only when the reward balance is strictly above 1000 tokens. */
  lemma ClaimOnlyAboveThreshold(r: ChainReplies)
    ensures Attempt(r).flushed && Attempt(r).outcome.claimed ==>
              r.rewards.Returned? && r.rewards.value > ClaimThreshold && r.claim.Returned?
    ensures Attempt(r).flushed && !Attempt(r).outcome.claimed ==>
              r.rewards.Returned? && r.rewards.value <= ClaimThreshold
  {
  }

  /**
   * A failed reward query or claim after a mined flush leaves both a success
   * and a failure on the counters, and the attempt returns false.
   */
  lemma ClaimErrorAfterFlush(r: ChainReplies)
    requires Mined(r) && r.receipt.value.status == Some(1)
    requires EffectiveGasPrice(r.receipt.value.gasPrice, r.feeData.value.gasPrice).Some?
    requires r.rewards.Threw? || (r.rewards.value > ClaimThreshold && r.claim.Threw?)
    ensures !Attempt(r).flushed && Attempt(r).tallies == [Succeeded, Failed]
    ensures Attempt(r).outcome == Caught(Classify(if r.rewards.Threw? then r.rewards.message else r.claim.message))
  {
  }

  /**
   * An attempt returns true exactly when its transaction is mined with
   * status 1, a gas price is known for the cost, the reward query returns,
   * and, for rewards above the threshold, the claim goes through. It then
   * records one success and nothing else, and it claims exactly when the
   * rewards are above the threshold.
   */
  lemma FlushedIff(r: ChainReplies)
    ensures Attempt(r).flushed <==>
              && Mined(r) && r.receipt.value.status == Some(1)
              && EffectiveGasPrice(r.receipt.value.gasPrice, r.feeData.value.gasPrice).Some?
              && r.rewards.Returned?
              && (r.rewards.value > ClaimThreshold ==> r.claim.Returned?)
    ensures Attempt(r).flushed ==>
              Attempt(r).tallies == [Succeeded] && Attempt(r).outcome.claimed == (r.rewards.value > ClaimThreshold)
  {
  }

  /**
   * An exception before the flush is confirmed (in the estimate, the fee
   * quote, the broadcast, the wait for the receipt, or the cost of a receipt
   * without a gas price) records one failure and nothing else, returns
   * false, and is classified by its message.
   */
  lemma ThrowBeforeFlushFails(r: ChainReplies)
    ensures r.estimate.Threw? ==>
              Attempt(r) == AttemptResult(false, [Failed], Caught(Classify(r.estimate.message)), None)
    ensures r.estimate.Returned? && r.feeData.Threw? ==>
              Attempt(r) == AttemptResult(false, [Failed], Caught(Classify(r.feeData.message)), None)
    ensures r.estimate.Returned? && r.feeData.Returned? && r.sent.Threw? ==>
              Attempt(r) == AttemptResult(false, [Failed], Caught(Classify(r.sent.message)),
                                          Some(TxOptionsFor(r.estimate.value, r.feeData.value)))
    ensures r.estimate.Returned? && r.feeData.Returned? && r.sent.Returned? && r.receipt.Threw? ==>
              Attempt(r) == AttemptResult(false, [Failed], Caught(Classify(r.receipt.message)),
                                          Some(TxOptionsFor(r.estimate.value, r.feeData.value)))
    ensures Mined(r) && r.receipt.value.status == Some(1)
            && EffectiveGasPrice(r.receipt.value.gasPrice, r.feeData.value.gasPrice).None? ==>
              Attempt(r) == AttemptResult(false, [Failed], Caught(Classify(MixedTypesMessage)),
                                          Some(TxOptionsFor(r.estimate.value, r.feeData.value)))
  {
  }

  /** Every attempt that reaches the broadcast sends the options `TxOptionsFor` builds. */
  lemma SentOptions(r: ChainReplies)
    ensures Attempt(r).sent.Some? <==> r.estimate.Returned? && r.feeData.Returned?
    ensures Attempt(r).sent.Some? ==>
              Attempt(r).sent.value == TxOptionsFor(r.estimate.value, r.feeData.value)
  {
  }

  /** The counters after the updates `tallies`, all for the wallet at `index` (-1: none). */
  function ApplyTallies(successes: seq<nat>, failures: seq<nat>, index: int, tallies: seq<Tally>): (c: (seq<nat>, seq<nat>))
    ensures |c.0| == |successes| && |c.1| == |failures|
    decreases |tallies|
  {
    if tallies == [] then (successes, failures)
    else
      var (s, f) := if tallies[0] == Succeeded then (Bump(successes, index), failures)
                    else (successes, Bump(failures, index));
      ApplyTallies(s, f, index, tallies[1..])
  }

  /** One more update applies on top of the earlier ones. */
  lemma {:induction false} ApplyTalliesSnoc(successes: seq<nat>, failures: seq<nat>, index: int, tallies: seq<Tally>, t: Tally)
    ensures var c := ApplyTallies(successes, failures, index, tallies);
            ApplyTallies(successes, failures, index, tallies + [t])
              == if t == Succeeded then (Bump(c.0, index), c.1) else (c.0, Bump(c.1, index))
    decreases |tallies|
  {
    if tallies == [] {
      assert [] + [t] == [t];
    } else {
      assert (tallies + [t])[1..] == tallies[1..] + [t];
      var (s, f) := if tallies[0] == Succeeded then (Bump(successes, index), failures)
                    else (successes, Bump(failures, index));
      ApplyTalliesSnoc(s, f, index, tallies[1..], t);
    }
  }

  /**
   * `attemptFlushWithWallet`: runs the attempt against the replies, recording
   * a success or a failure on the pool as it goes, and returns whether the
   * flush (and any claim) went through.
   */
  method AttemptFlushWithWallet(pool: MultiWalletManager, wallet: Wallet, r: ChainReplies)
    returns (flushed: bool)
    requires pool.Valid()
    modifies pool.successCounts, pool.failCounts
    ensures pool.Valid()
    ensures flushed == Attempt(r).flushed
    ensures (pool.successCounts[..], pool.failCounts[..])
            == ApplyTallies(old(pool.successCounts[..]), old(pool.failCounts[..]),
                            FindIndex(pool.wallets, wallet.address), Attempt(r).tallies)
  {
    ghost var index := FindIndex(pool.wallets, wallet.address);
    ghost var s0, f0 := pool.successCounts[..], pool.failCounts[..];
    ghost var tallies: seq<Tally> := [];
    var thrown: Option<string> := None;
    flushed := false;
    if r.estimate.Threw? {
      thrown := Some(r.estimate.message);
    } else if r.feeData.Threw? {
      thrown := Some(r.feeData.message);
    } else {
      var feeData := r.feeData.value;
      var txOptions := BuildTxOptions(r.estimate.value, feeData);
      if r.sent.Threw? {
        thrown := Some(r.sent.message);
      } else if r.receipt.Threw? {
        thrown := Some(r.receipt.message);
      } else if r.receipt.value.status == Some(1) {
        var receipt := r.receipt.value;
        var gasPrice := EffectiveGasPrice(receipt.gasPrice, feeData.gasPrice);
        if gasPrice.None? {
          thrown := Some(MixedTypesMessage);
        } else {
          pool.RecordSuccess(wallet.address);
          ApplyTalliesSnoc(s0, f0, index, tallies, Succeeded);
          tallies := tallies + [Succeeded];
          if r.rewards.Threw? {
            thrown := Some(r.rewards.message);
          } else if r.rewards.value > ClaimThreshold && r.claim.Threw? {
            thrown := Some(r.claim.message);
          } else {
            flushed := true;
          }
        }
      } else {
        pool.RecordFailure(wallet.address);
        ApplyTalliesSnoc(s0, f0, index, tallies, Failed);
        tallies := tallies + [Failed];
      }
    }
    if thrown.Some? {
      pool.RecordFailure(wallet.address);
      ApplyTalliesSnoc(s0, f0, index, tallies, Failed);
      tallies := tallies + [Failed];
      flushed := false;
    }
    assert tallies == Attempt(r).tallies;
  }
}
