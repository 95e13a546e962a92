/**
 * FlushOrchestrator (`main` and `attemptMultiWalletFlush`): the private-key
 * list read at start-up, the gas-price gate, one flush attempt per wallet,
 * and the per-epoch guard `lastFlushedEpoch` that lets at most one campaign
 * run for each epoch index.
 */
module Orchestrator {
  import opened Common
  import opened Text
  import opened EpochTracker
  import opened WalletPool
  import opened Submitter

  /** Wei in one gwei: `MAX_GAS_PRICE` is `parseUnits(gwei, 'gwei')`. */
  const WeiPerGwei: nat := 1_000_000_000

  /** Default gas-price ceiling, in gwei. */
  const DefaultMaxGasPriceGwei: nat := 50

  /** Back-off after an error escapes the loop body, in milliseconds. */
  const LoopBackoffMs: nat := 30000

  /**
   * `MAX_GAS_PRICE`: the ceiling in wei from `MAX_GAS_PRICE_GWEI`, a whole
   * number of gwei (None when unset or empty, which selects the default).
   * The ceiling is a whole number of gwei, and reads back as the setting.
   */
  function MaxGasPrice(gweiSetting: Option<nat>): (p: nat)
    ensures p % WeiPerGwei == 0
    ensures p / WeiPerGwei == if gweiSetting.Some? then gweiSetting.value else DefaultMaxGasPriceGwei
  {
    var gwei := if gweiSetting.Some? then gweiSetting.value else DefaultMaxGasPriceGwei;
    ModUnique(gwei * WeiPerGwei, WeiPerGwei, gwei, 0);
    gwei * WeiPerGwei
  }

  datatype StartupError = KeysUnset | NoKeys

  /** `split(',').filter(k => k.trim())`: the pieces that are more than white space, in order. */
  function NonBlank(pieces: seq<string>): (keys: seq<string>)
    ensures |keys| <= |pieces|
    ensures forall k :: k in keys <==> k in pieces && Trim(k) != []
  {
    if pieces == [] then []
    else
      var rest := NonBlank(pieces[1..]);
      assert forall k :: k in pieces <==> k == pieces[0] || k in pieces[1..];
      if Trim(pieces[0]) != [] then [pieces[0]] + rest else rest
  }

  /**
   * `idx` picks the elements of `keys` out of `pieces` in order: `keys[t]`
   * is the piece at position `idx[t]`, and the positions strictly increase.
   */
  ghost predicate PicksInOrder(keys: seq<string>, pieces: seq<string>, idx: seq<nat>)
  {
    && |idx| == |keys|
    && (forall t :: 0 <= t < |idx| ==> idx[t] < |pieces| && keys[t] == pieces[idx[t]])
    && (forall s, t :: 0 <= s < t < |idx| ==> idx[s] < idx[t])
  }

  /** The filter keeps every non-blank piece as often as it occurs, and drops every blank one. */
  lemma {:induction false} NonBlankCounts(pieces: seq<string>)
    ensures forall k :: multiset(NonBlank(pieces))[k] == if Trim(k) != [] then multiset(pieces)[k] else 0
  {
    if pieces != [] {
      NonBlankCounts(pieces[1..]);
      assert pieces == [pieces[0]] + pieces[1..];
      assert multiset(pieces) == multiset{pieces[0]} + multiset(pieces[1..]);
    }
  }

  /** The filter keeps the surviving pieces in their original order. */
  lemma {:induction false} NonBlankKeepsOrder(pieces: seq<string>)
    ensures exists idx :: PicksInOrder(NonBlank(pieces), pieces, idx)
  {
    if pieces == [] {
      assert PicksInOrder(NonBlank(pieces), pieces, []);
    } else {
      var rest := NonBlank(pieces[1..]);
      NonBlankKeepsOrder(pieces[1..]);
      var idx :| PicksInOrder(rest, pieces[1..], idx);
      var shifted := PicksAfterHead(rest, pieces, idx);
      if Trim(pieces[0]) != [] {
        assert NonBlank(pieces) == [pieces[0]] + rest;
        PicksHead(rest, pieces, shifted);
      } else {
        assert NonBlank(pieces) == rest;
      }
    }
  }

  /** Positions in the tail of `pieces`, moved one up, are positions in `pieces`. */
  lemma PicksAfterHead(keys: seq<string>, pieces: seq<string>, idx: seq<nat>) returns (shifted: seq<nat>)
    requires pieces != [] && PicksInOrder(keys, pieces[1..], idx)
    ensures PicksInOrder(keys, pieces, shifted)
    ensures forall t :: 0 <= t < |shifted| ==> shifted[t] > 0
  {
    shifted := seq(|idx|, t requires 0 <= t < |idx| => idx[t] + 1);
  }

  /** Picking the head first, then positions after it, picks in order. */
  lemma PicksHead(keys: seq<string>, pieces: seq<string>, idx: seq<nat>)
    requires pieces != [] && PicksInOrder(keys, pieces, idx)
    requires forall t :: 0 <= t < |idx| ==> idx[t] > 0
    ensures PicksInOrder([pieces[0]] + keys, pieces, [0] + idx)
  {
  }

  /**
   * The private keys from `PRIVATE_KEYS`: an unset variable fails (`split`
   * on undefined), and so does a list with no key that is more than white
   * space. A returned key is one comma-separated piece of the variable, not
   * blank, and every such piece is returned.
   */
  function PrivateKeys(env: Option<string>): (r: Result<seq<string>, StartupError>)
    ensures env.None? ==> r == Err(KeysUnset)
    ensures env.Some? ==> (r == Err(NoKeys) <==> forall k :: k in Split(env.value, ',') ==> AllSpace(k))
    ensures r.Ok? ==> |r.value| >= 1
    ensures r.Ok? ==> forall k :: k in r.value <==> k in Split(env.value, ',') && !AllSpace(k)
    ensures r.Ok? ==> forall k :: multiset(r.value)[k] == if AllSpace(k) then 0 else multiset(Split(env.value, ','))[k]
    ensures r.Ok? ==> exists idx :: PicksInOrder(r.value, Split(env.value, ','), idx)
  {
    match env
    case None => Err(KeysUnset)
    case Some(s) =>
      var pieces := Split(s, ',');
      var keys := NonBlank(pieces);
      forall k ensures Trim(k) == [] <==> AllSpace(k) { TrimEmptyIff(k); }
      NonBlankCounts(pieces);
      NonBlankKeepsOrder(pieces);
      if |keys| == 0 then
        assert forall k :: k in pieces ==> AllSpace(k) by {
          forall k | k in pieces ensures AllSpace(k) { assert k !in keys; }
        }
        Err(NoKeys)
      else
        assert keys[0] in keys;
        Ok(keys)
  }

  /** How the fee quote decides the campaign. */
  datatype Gate = QuoteFailed | TooExpensive(gasPrice: nat) | Clear(gasPrice: nat)

  /**
   * The gas gate of `attemptMultiWalletFlush`: a failed quote, or one without
   * a gas price (which cannot be formatted), throws; a price strictly above the
   * ceiling skips the epoch; anything else lets the campaign go ahead.
   */
  function GasGate(quote: Call<FeeData>, maxGasPrice: nat): (g: Gate)
    ensures g.QuoteFailed? <==> quote.Threw? || quote.value.gasPrice.None?
    ensures g.TooExpensive? <==> quote.Returned? && quote.value.gasPrice.Some? && quote.value.gasPrice.value > maxGasPrice
    ensures !g.QuoteFailed? ==> g.gasPrice == quote.value.gasPrice.value
  {
    match quote
    case Threw(_) => QuoteFailed
    case Returned(feeData) =>
      match feeData.gasPrice
      case None => QuoteFailed
      case Some(gasPrice) => if gasPrice > maxGasPrice then TooExpensive(gasPrice) else Clear(gasPrice)
  }

  /** Number of successes among the tallies of one attempt. */
  function CountOf(tallies: seq<Tally>, t: Tally): nat
  {
    if tallies == [] then 0 else (if tallies[0] == t then 1 else 0) + CountOf(tallies[1..], t)
  }

  /**
   * Updates for a wallet that is in the pool raise the success total by the
   * successes and the failure total by the failures among them.
   */
  lemma {:induction false} ApplyTalliesTotals(successes: seq<nat>, failures: seq<nat>, index: int, tallies: seq<Tally>)
    requires 0 <= index < |successes| && index < |failures|
    ensures var c := ApplyTallies(successes, failures, index, tallies);
            Sum(c.0) == Sum(successes) + CountOf(tallies, Succeeded)
            && Sum(c.1) == Sum(failures) + CountOf(tallies, Failed)
    decreases |tallies|
  {
    if tallies != [] {
      if tallies[0] == Succeeded {
        SumIncrement(successes, index);
        ApplyTalliesTotals(Bump(successes, index), failures, index, tallies[1..]);
      } else {
        SumIncrement(failures, index);
        ApplyTalliesTotals(successes, Bump(failures, index), index, tallies[1..]);
      }
    }
  }

  /** The updates touch only the counters at `index`, each by its own tally count. */
  lemma {:induction false} ApplyTalliesAt(successes: seq<nat>, failures: seq<nat>, index: int, tallies: seq<Tally>)
    requires |successes| == |failures|
    ensures var c := ApplyTallies(successes, failures, index, tallies);
            forall i :: 0 <= i < |successes| ==>
              && c.0[i] == successes[i] + (if i == index then CountOf(tallies, Succeeded) else 0)
              && c.1[i] == failures[i] + (if i == index then CountOf(tallies, Failed) else 0)
    decreases |tallies|
  {
    if tallies != [] {
      if tallies[0] == Succeeded {
        ApplyTalliesAt(Bump(successes, index), failures, index, tallies[1..]);
      } else {
        ApplyTalliesAt(successes, Bump(failures, index), index, tallies[1..]);
      }
    }
  }

  /** The result of each wallet's attempt, for the chain replies that wallet gets. */
  function Outcomes(replies: seq<ChainReplies>): (results: seq<AttemptResult>)
    ensures |results| == |replies|
    ensures forall j :: 0 <= j < |replies| ==> results[j] == Attempt(replies[j])
  {
    seq(|replies|, j requires 0 <= j < |replies| => Attempt(replies[j]))
  }

  /** The counters after the attempts of the first `k` wallets, made in wallet order. */
  function CampaignCounters(wallets: seq<Wallet>, successes: seq<nat>, failures: seq<nat>,
                            results: seq<AttemptResult>, k: nat): (c: (seq<nat>, seq<nat>))
    requires k <= |wallets| && k <= |results|
    ensures |c.0| == |successes| && |c.1| == |failures|
  {
    if k == 0 then (successes, failures)
    else
      var c := CampaignCounters(wallets, successes, failures, results, k - 1);
      ApplyTallies(c.0, c.1, FindIndex(wallets, wallets[k - 1].address), results[k - 1].tallies)
  }

  /** How many of the first `k` attempts returned true. */
  function SuccessCount(results: seq<AttemptResult>, k: nat): (n: nat)
    requires k <= |results|
    ensures n <= k
  {
    if k == 0 then 0 else SuccessCount(results, k - 1) + (if results[k - 1].flushed then 1 else 0)
  }

  /**
   * An attempt settles once: it records exactly one failure unless it
   * returns true, and at least one success when it does.
   */
  predicate Settled(a: AttemptResult)
  {
    CountOf(a.tallies, Failed) + (if a.flushed then 1 else 0) == 1
    && CountOf(a.tallies, Succeeded) >= (if a.flushed then 1 else 0)
  }

  /** Every attempt settles once, whatever the chain replies. */
  lemma AttemptSettlesOnce(r: ChainReplies)
    ensures Settled(Attempt(r))
  {
    var a := Attempt(r);
    if a.tallies == [Succeeded, Failed] {
      assert a.tallies[1..] == [Failed];
      assert CountOf([Failed], Failed) == 1 && CountOf([Failed], Succeeded) == 0;
    }
  }

  /** Every attempt of a campaign settles once. */
  lemma OutcomesSettle(replies: seq<ChainReplies>)
    ensures forall j :: 0 <= j < |replies| ==> Settled(Outcomes(replies)[j])
  {
    forall j | 0 <= j < |replies|
      ensures Settled(Outcomes(replies)[j])
    {
      AttemptSettlesOnce(replies[j]);
    }
  }

  /**
   * When each of the first `k` attempts settles once (as every attempt does,
   * by `OutcomesSettle`), the failures added plus the reported successes
   * make exactly `k`, and the successes added are at least the reported
   * successes.
   */
  lemma {:induction false} CampaignSettlesEveryWallet(wallets: seq<Wallet>, successes: seq<nat>, failures: seq<nat>,
                                         results: seq<AttemptResult>, k: nat)
    requires k <= |wallets| && k <= |results|
    requires |successes| == |wallets| && |failures| == |wallets|
    requires forall j :: 0 <= j < k ==> Settled(results[j])
    ensures var c := CampaignCounters(wallets, successes, failures, results, k);
            Sum(c.1) - Sum(failures) + SuccessCount(results, k) == k
            && Sum(c.0) - Sum(successes) >= SuccessCount(results, k)
  {
    if k > 0 {
      CampaignSettlesEveryWallet(wallets, successes, failures, results, k - 1);
      var c := CampaignCounters(wallets, successes, failures, results, k - 1);
      ApplyTalliesTotals(c.0, c.1, FindIndex(wallets, wallets[k - 1].address), results[k - 1].tallies);
      assert Settled(results[k - 1]);
    }
  }

  /** One counter update: `recordSuccess` or `recordFailure` on the wallet at `index` (-1: none). */
  datatype Update = Update(index: int, tally: Tally)

  /** The counters after `updates`, made one after another in that order. */
  function ApplyUpdates(successes: seq<nat>, failures: seq<nat>, updates: seq<Update>): (c: (seq<nat>, seq<nat>))
    ensures |c.0| == |successes| && |c.1| == |failures|
    decreases |updates|
  {
    if updates == [] then (successes, failures)
    else
      var c := ApplyUpdates(successes, failures, updates[..|updates| - 1]);
      var u := updates[|updates| - 1];
      if u.tally == Succeeded then (Bump(c.0, u.index), c.1) else (c.0, Bump(c.1, u.index))
  }

  /** Each counter grows by the number of updates addressed to it, wherever they stand in the list. */
  lemma {:induction false} ApplyUpdatesCounts(successes: seq<nat>, failures: seq<nat>, updates: seq<Update>)
    ensures var c := ApplyUpdates(successes, failures, updates);
            && (forall i :: 0 <= i < |successes| ==> c.0[i] == successes[i] + multiset(updates)[Update(i, Succeeded)])
            && (forall i :: 0 <= i < |failures| ==> c.1[i] == failures[i] + multiset(updates)[Update(i, Failed)])
    decreases |updates|
  {
    if updates != [] {
      var init, u := updates[..|updates| - 1], updates[|updates| - 1];
      ApplyUpdatesCounts(successes, failures, init);
      assert updates == init + [u];
      assert multiset(updates) == multiset(init) + multiset{u};
    }
  }

  /**
   * The counters depend only on which updates are made, not on their order:
   * any interleaving of the same updates leaves the same counters.
   */
  lemma ApplyUpdatesAnyOrder(successes: seq<nat>, failures: seq<nat>, u1: seq<Update>, u2: seq<Update>)
    requires multiset(u1) == multiset(u2)
    ensures ApplyUpdates(successes, failures, u1) == ApplyUpdates(successes, failures, u2)
  {
    var c1, c2 := ApplyUpdates(successes, failures, u1), ApplyUpdates(successes, failures, u2);
    ApplyUpdatesCounts(successes, failures, u1);
    ApplyUpdatesCounts(successes, failures, u2);
    assert c1.0 == c2.0;
    assert c1.1 == c2.1;
  }

  /** Updates made one list after another are the updates of the joined list. */
  lemma {:induction false} ApplyUpdatesAppend(successes: seq<nat>, failures: seq<nat>, a: seq<Update>, b: seq<Update>)
    ensures var c := ApplyUpdates(successes, failures, a);
            ApplyUpdates(successes, failures, a + b) == ApplyUpdates(c.0, c.1, b)
    decreases |b|
  {
    if b == [] {
      assert a + b == a;
    } else {
      var init := b[..|b| - 1];
      ApplyUpdatesAppend(successes, failures, a, init);
      assert (a + b)[..|a + b| - 1] == a + init;
    }
  }

  /** The updates of one attempt, all addressed to the wallet at `index`. */
  function UpdatesOf(index: int, tallies: seq<Tally>): (u: seq<Update>)
    ensures |u| == |tallies|
    ensures forall t :: 0 <= t < |u| ==> u[t] == Update(index, tallies[t])
  {
    seq(|tallies|, t requires 0 <= t < |tallies| => Update(index, tallies[t]))
  }

  /** An attempt's tallies applied in order are its updates applied in order. */
  lemma {:induction false} ApplyTalliesAsUpdates(successes: seq<nat>, failures: seq<nat>, index: int, tallies: seq<Tally>)
    ensures ApplyTallies(successes, failures, index, tallies) == ApplyUpdates(successes, failures, UpdatesOf(index, tallies))
    decreases |tallies|
  {
    if tallies != [] {
      var init, t := tallies[..|tallies| - 1], tallies[|tallies| - 1];
      ApplyTalliesAsUpdates(successes, failures, index, init);
      assert tallies == init + [t];
      ApplyTalliesSnoc(successes, failures, index, init, t);
      assert UpdatesOf(index, tallies)[..|tallies| - 1] == UpdatesOf(index, init);
    }
  }

  /** Every update of the first `k` attempts, in wallet order. */
  function CampaignUpdates(wallets: seq<Wallet>, results: seq<AttemptResult>, k: nat): (u: seq<Update>)
    requires k <= |wallets| && k <= |results|
  {
    if k == 0 then []
    else CampaignUpdates(wallets, results, k - 1)
         + UpdatesOf(FindIndex(wallets, wallets[k - 1].address), results[k - 1].tallies)
  }

  /** The campaign's counters are those of its updates made one after another. */
  lemma {:induction false} CampaignCountersAreUpdates(wallets: seq<Wallet>, successes: seq<nat>, failures: seq<nat>,
                                                      results: seq<AttemptResult>, k: nat)
    requires k <= |wallets| && k <= |results|
    ensures CampaignCounters(wallets, successes, failures, results, k)
            == ApplyUpdates(successes, failures, CampaignUpdates(wallets, results, k))
  {
    if k > 0 {
      CampaignCountersAreUpdates(wallets, successes, failures, results, k - 1);
      var c := CampaignCounters(wallets, successes, failures, results, k - 1);
      var index := FindIndex(wallets, wallets[k - 1].address);
      ApplyTalliesAsUpdates(c.0, c.1, index, results[k - 1].tallies);
      ApplyUpdatesAppend(successes, failures, CampaignUpdates(wallets, results, k - 1),
                         UpdatesOf(index, results[k - 1].tallies));
    }
  }

  /**
   * The attempts of a campaign run concurrently, so their updates may
   * interleave in any order; every interleaving leaves the counters the
   * campaign in wallet order leaves.
   */
  lemma AnyInterleavingSameCounters(wallets: seq<Wallet>, successes: seq<nat>, failures: seq<nat>,
                                    results: seq<AttemptResult>, updates: seq<Update>)
    requires |results| == |wallets|
    requires multiset(updates) == multiset(CampaignUpdates(wallets, results, |results|))
    ensures ApplyUpdates(successes, failures, updates)
            == CampaignCounters(wallets, successes, failures, results, |results|)
  {
    CampaignCountersAreUpdates(wallets, successes, failures, results, |results|);
    ApplyUpdatesAnyOrder(successes, failures, updates, CampaignUpdates(wallets, results, |results|));
  }

  /** No two wallets of the pool share an address. */
  predicate DistinctAddresses(wallets: seq<Wallet>)
  {
    forall i, j :: 0 <= i < j < |wallets| ==> wallets[i].address != wallets[j].address
  }

  /**
   * When no two wallets share an address, each wallet's counters move only
   * by the outcome of its own attempt.
   */
  lemma {:induction false} CampaignCountsPerWallet(wallets: seq<Wallet>, successes: seq<nat>, failures: seq<nat>,
                                                   results: seq<AttemptResult>, k: nat)
    requires DistinctAddresses(wallets)
    requires k <= |wallets| && k <= |results|
    requires |successes| == |wallets| && |failures| == |wallets|
    ensures var c := CampaignCounters(wallets, successes, failures, results, k);
            forall i :: 0 <= i < |wallets| ==>
              && c.0[i] == successes[i] + (if i < k then CountOf(results[i].tallies, Succeeded) else 0)
              && c.1[i] == failures[i] + (if i < k then CountOf(results[i].tallies, Failed) else 0)
  {
    if k > 0 {
      CampaignCountsPerWallet(wallets, successes, failures, results, k - 1);
      var c := CampaignCounters(wallets, successes, failures, results, k - 1);
      OwnIndex(wallets, k - 1);
      ApplyTalliesAt(c.0, c.1, k - 1, results[k - 1].tallies);
    }
  }

  /** With distinct addresses, looking a wallet up by its address finds that wallet. */
  lemma OwnIndex(wallets: seq<Wallet>, i: nat)
    requires DistinctAddresses(wallets) && i < |wallets|
    ensures FindIndex(wallets, wallets[i].address) == i
  {
  }

  /** Replies of an attempt that is mined with status 1 and finds no rewards to claim. */
  const FlushingReplies: ChainReplies :=
    ChainReplies(Returned(200000), Returned(FeeData(Some(5), Some(10), Some(1))), Returned(()),
                 Returned(Receipt(Some(1), 150000, Some(4))), Returned(0), Returned(()))

  /** Replies of an attempt whose estimate reverts because another operator flushed first. */
  const BeatenReplies: ChainReplies :=
    ChainReplies(Threw("execution reverted: queue empty"), Returned(FeeData(None, None, None)),
                 Returned(()), Returned(Receipt(None, 0, None)), Returned(0), Returned(()))

  /** Replies of an attempt whose estimate fails with an unrelated error. */
  const StalledReplies: ChainReplies :=
    ChainReplies(Threw("timeout"), Returned(FeeData(None, None, None)),
                 Returned(()), Returned(Receipt(None, 0, None)), Returned(0), Returned(()))

  /** How each of the three attempts ends, with its cost or the reading of its error. */
  lemma ThreeAttemptOutcomes()
    ensures Attempt(FlushingReplies) == AttemptResult(true, [Succeeded], Flushed(600000, false),
                                                      Some(TxOptions(240000, Some(10), Some(1))))
    ensures Attempt(BeatenReplies).tallies == [Failed] && Attempt(BeatenReplies).outcome == Caught(AlreadyFlushed)
    ensures Attempt(StalledReplies).tallies == [Failed] && Attempt(StalledReplies).outcome == Caught(OtherError("timeout"))
  {
    assert OccursAt("execution reverted: queue empty", "execution reverted", 0);
    ContainsIff("timeout", "execution reverted");
    ContainsIff("timeout", "already flushed");
    ContainsIff("timeout", "replacement fee too low");
  }

  /**
   * Three wallets: the first flushes, the second is told the queue was
   * already flushed, the third fails with an unrelated error. The counters
   * then read successes [1, 0, 0] and failures [0, 1, 1].
   */
  lemma ThreeWalletCampaign(w1: Wallet, w2: Wallet, w3: Wallet)
    requires DistinctAddresses([w1, w2, w3])
    ensures var c := CampaignCounters([w1, w2, w3], [0, 0, 0], [0, 0, 0],
                                      Outcomes([FlushingReplies, BeatenReplies, StalledReplies]), 3);
            c.0[0] == 1 && c.0[1] == 0 && c.0[2] == 0 && c.1[0] == 0 && c.1[1] == 1 && c.1[2] == 1
  {
    ThreeAttemptOutcomes();
    assert CountOf([Succeeded], Succeeded) == 1 && CountOf([Succeeded], Failed) == 0;
    assert CountOf([Failed], Succeeded) == 0 && CountOf([Failed], Failed) == 1;
    CampaignCountsPerWallet([w1, w2, w3], [0, 0, 0], [0, 0, 0],
                            Outcomes([FlushingReplies, BeatenReplies, StalledReplies]), 3);
  }

  /** Of those three attempts, one reports success. */
  lemma ThreeWalletSuccessCount()
    ensures SuccessCount(Outcomes([FlushingReplies, BeatenReplies, StalledReplies]), 3) == 1
  {
    ThreeAttemptOutcomes();
    var results := Outcomes([FlushingReplies, BeatenReplies, StalledReplies]);
    assert SuccessCount(results, 1) == 1;
    assert SuccessCount(results, 2) == 1;
  }

  /** What `attemptMultiWalletFlush` did when it returned normally. */
  datatype Campaign = GasSkipped(gasPrice: nat) | Completed(successCount: nat, attempted: nat)

  /**
   * The fan-out of `attemptMultiWalletFlush`: one attempt per wallet of the
   * pool (the model runs them in wallet order), counting those that
   * returned true.
   */
  method FlushWithAllWallets(pool: MultiWalletManager, replies: seq<ChainReplies>) returns (successCount: nat)
    requires pool.Valid() && |replies| == |pool.wallets|
    modifies pool.successCounts, pool.failCounts
    ensures pool.Valid()
    ensures successCount == SuccessCount(Outcomes(replies), |replies|)
    ensures (pool.successCounts[..], pool.failCounts[..])
            == CampaignCounters(pool.wallets, old(pool.successCounts[..]), old(pool.failCounts[..]), Outcomes(replies), |replies|)
  {
    ghost var s0, f0 := pool.successCounts[..], pool.failCounts[..];
    successCount := 0;
    var i := 0;
    while i < |replies|
      invariant 0 <= i <= |replies|
      invariant pool.Valid()
      invariant (pool.successCounts[..], pool.failCounts[..]) == CampaignCounters(pool.wallets, s0, f0, Outcomes(replies), i)
      invariant successCount == SuccessCount(Outcomes(replies), i)
    {
      successCount := AttemptNextWallet(pool, replies, i, s0, f0, successCount);
      i := i + 1;
    }
  }

  /**
   * One wallet's turn in the campaign: the attempt of wallet `i`, which
   * extends the campaign's counters and its success count by that attempt.
   * `s0` and `f0` are the counters before the campaign began.
   */
  method AttemptNextWallet(pool: MultiWalletManager, replies: seq<ChainReplies>, i: nat,
                           ghost s0: seq<nat>, ghost f0: seq<nat>, successCount: nat)
    returns (newCount: nat)
    requires pool.Valid() && i < |replies| == |pool.wallets|
    requires (pool.successCounts[..], pool.failCounts[..]) == CampaignCounters(pool.wallets, s0, f0, Outcomes(replies), i)
    requires successCount == SuccessCount(Outcomes(replies), i)
    modifies pool.successCounts, pool.failCounts
    ensures pool.Valid()
    ensures (pool.successCounts[..], pool.failCounts[..]) == CampaignCounters(pool.wallets, s0, f0, Outcomes(replies), i + 1)
    ensures newCount == SuccessCount(Outcomes(replies), i + 1)
  {
    var flushed := AttemptFlushWithWallet(pool, pool.wallets[i], replies[i]);
    newCount := if flushed then successCount + 1 else successCount;
  }

  /**
   * `attemptMultiWalletFlush`: quotes the gas price, skips the epoch when it
   * is above the ceiling, and otherwise makes one attempt per wallet and
   * counts those that returned true. `None` stands for the exception a
   * failed quote throws.
   */
  method AttemptMultiWalletFlush(pool: MultiWalletManager, quote: Call<FeeData>,
                                 replies: seq<ChainReplies>, maxGasPrice: nat)
    returns (r: Option<Campaign>)
    requires pool.Valid() && |replies| == |pool.wallets|
    modifies pool.successCounts, pool.failCounts
    ensures pool.Valid()
    ensures var gate := GasGate(quote, maxGasPrice);
            match gate
            case QuoteFailed => r == None
            case TooExpensive(p) => r == Some(GasSkipped(p))
            case Clear(_) => r == Some(Completed(SuccessCount(Outcomes(replies), |replies|), |replies|))
    ensures var c := CampaignCounters(pool.wallets, old(pool.successCounts[..]), old(pool.failCounts[..]),
                                      Outcomes(replies), |replies|);
            (pool.successCounts[..], pool.failCounts[..])
              == if GasGate(quote, maxGasPrice).Clear? then c
                 else (old(pool.successCounts[..]), old(pool.failCounts[..]))
  {
    if quote.Threw? {
      return None;
    }
    var gasPrice := quote.value.gasPrice;
    if gasPrice.None? {
      return None;
    }
    if gasPrice.value > maxGasPrice {
      return Some(GasSkipped(gasPrice.value));
    }
    var successCount := FlushWithAllWallets(pool, replies);
    return Some(Completed(successCount, |pool.wallets|));
  }

  /** Where `lastFlushedEpoch` moves when the loop wakes in `epoch`: a campaign that returns, gas skip included, records the epoch. */
  function NextLastFlushed(last: int, epoch: int, gate: Gate): (next: int)
    ensures next >= last
    ensures next > last <==> epoch > last && !gate.QuoteFailed?
    ensures next > last ==> next == epoch
  {
    if epoch > last && !gate.QuoteFailed? then epoch else last
  }

  /** The wake-up makes flush attempts: a new epoch and a gas price under the ceiling. */
  predicate Attempts(last: int, epoch: int, gate: Gate)
  {
    epoch > last && gate.Clear?
  }

  /** One wake-up of the main loop: the epoch it sees and what the quote gave. */
  datatype Wake = Wake(epoch: int, gate: Gate)

  /** `lastFlushedEpoch` after a run of wake-ups. */
  function LastAfter(last: int, wakes: seq<Wake>): int
    decreases |wakes|
  {
    if wakes == [] then last else LastAfter(NextLastFlushed(last, wakes[0].epoch, wakes[0].gate), wakes[1..])
  }

  /** The epochs, in order, of the wake-ups that made flush attempts. */
  function AttemptedEpochs(last: int, wakes: seq<Wake>): seq<int>
    decreases |wakes|
  {
    if wakes == [] then []
    else
      var w := wakes[0];
      (if Attempts(last, w.epoch, w.gate) then [w.epoch] else [])
        + AttemptedEpochs(NextLastFlushed(last, w.epoch, w.gate), wakes[1..])
  }

  /**
   * However often the loop wakes, and whatever epochs it sees, the guard
   * never moves back and the campaigns that attempt flushes do so for
   * strictly increasing epochs, all after the starting value: at most one
   * per epoch index.
   */
  lemma {:induction false} AtMostOneCampaignPerEpoch(last: int, wakes: seq<Wake>)
    ensures LastAfter(last, wakes) >= last
    ensures forall i :: 0 <= i < |AttemptedEpochs(last, wakes)| ==>
              last < AttemptedEpochs(last, wakes)[i] <= LastAfter(last, wakes)
    ensures forall i, j :: 0 <= i < j < |AttemptedEpochs(last, wakes)| ==>
              AttemptedEpochs(last, wakes)[i] < AttemptedEpochs(last, wakes)[j]
    decreases |wakes|
  {
    if wakes != [] {
      var w := wakes[0];
      var next := NextLastFlushed(last, w.epoch, w.gate);
      AtMostOneCampaignPerEpoch(next, wakes[1..]);
      var rest := AttemptedEpochs(next, wakes[1..]);
      var here: seq<int> := if Attempts(last, w.epoch, w.gate) then [w.epoch] else [];
      var all := AttemptedEpochs(last, wakes);
      assert all == here + rest;
      forall i | 0 <= i < |all|
        ensures last < all[i] <= LastAfter(last, wakes)
      {
        if i >= |here| { assert all[i] == rest[i - |here|]; }
      }
      forall i, j | 0 <= i < j < |all|
        ensures all[i] < all[j]
      {
        if i >= |here| { assert all[i] == rest[i - |here|] && all[j] == rest[j - |here|]; }
        else { assert all[i] == next && all[j] == rest[j - 1]; }
      }
    }
  }

  /** What one pass of the main loop did after the wait. */
  datatype LoopStep =
    | NotNewEpoch
    | CampaignReturned(campaign: Campaign)
    | Backoff(ms: nat)

  datatype EpochReport = EpochReport(sleeps: seq<nat>, epoch: nat, step: LoopStep, stats: seq<WalletStats>)

  /** The bot's state across epochs: the pool, the tracker, the configuration and the guard. */
  class FlushBot {
    const pool: MultiWalletManager
    const tracker: Tracker
    const maxGasPrice: nat
    const flushOffset: int
    var lastFlushedEpoch: int

    ghost predicate Valid()
      reads this, pool
    {
      pool.Valid() && tracker.epochDuration > 0
    }

    /**
     * The bot as `main` sets it up: the ceiling from `MAX_GAS_PRICE_GWEI`,
     * the offset from `FLUSH_OFFSET_SECONDS` (None when unset or empty: the
     * defaults), and the guard one below the epoch seen at initialisation.
     */
    constructor (pool: MultiWalletManager, tracker: Tracker, gweiSetting: Option<nat>,
                 offsetSetting: Option<int>, initialEpoch: int)
      requires pool.Valid() && tracker.epochDuration > 0
      ensures Valid()
      ensures this.pool == pool && this.tracker == tracker
      ensures maxGasPrice == MaxGasPrice(gweiSetting)
      ensures flushOffset == if offsetSetting.Some? then offsetSetting.value else DefaultFlushOffset
      ensures lastFlushedEpoch == initialEpoch - 1
    {
      this.pool := pool;
      this.tracker := tracker;
      maxGasPrice := MaxGasPrice(gweiSetting);
      flushOffset := if offsetSetting.Some? then offsetSetting.value else DefaultFlushOffset;
      lastFlushedEpoch := initialEpoch - 1;
    }

    /**
     * One pass of the main loop: wait for the next boundary (from clock
     * reading `nowMs`), read the epoch (clock reading `wakeMs`), run a
     * campaign if this epoch is newer than the last one flushed, and read
     * the statistics. A campaign that throws leaves the guard alone and
     * backs off.
     */
    method RunEpoch(nowMs: nat, wakeMs: nat, quote: Call<FeeData>, replies: seq<ChainReplies>)
      returns (report: EpochReport)
      requires Valid() && |replies| == |pool.wallets|
      modifies this`lastFlushedEpoch, pool.successCounts, pool.failCounts
      ensures Valid()
      ensures report.sleeps == Chunks(SecondsUntilNextEpoch(nowMs, tracker.epochDuration) + flushOffset)
      ensures report.epoch == CurrentEpoch(wakeMs, tracker.epochDuration)
      ensures var gate := GasGate(quote, maxGasPrice);
              && lastFlushedEpoch == NextLastFlushed(old(lastFlushedEpoch), report.epoch, gate)
              && (pool.successCounts[..], pool.failCounts[..])
                   == if Attempts(old(lastFlushedEpoch), report.epoch, gate)
                      then CampaignCounters(pool.wallets, old(pool.successCounts[..]), old(pool.failCounts[..]),
                                            Outcomes(replies), |replies|)
                      else (old(pool.successCounts[..]), old(pool.failCounts[..]))
      ensures report.step == NotNewEpoch <==> report.epoch <= old(lastFlushedEpoch)
      ensures report.step.Backoff? <==>
                report.epoch > old(lastFlushedEpoch) && GasGate(quote, maxGasPrice).QuoteFailed?
      ensures report.step.Backoff? ==> report.step.ms == LoopBackoffMs && report.stats == []
      ensures !report.step.Backoff? ==> report.stats == pool.GetStats()
    {
      var sleeps, countdown := WaitForNextEpoch(nowMs, tracker.epochDuration, flushOffset);
      var currentEpoch := CurrentEpoch(wakeMs, tracker.epochDuration);
      var step: LoopStep;
      if currentEpoch > lastFlushedEpoch {
        var campaign := AttemptMultiWalletFlush(pool, quote, replies, maxGasPrice);
        if campaign.None? {
          return EpochReport(sleeps, currentEpoch, Backoff(LoopBackoffMs), []);
        }
        lastFlushedEpoch := currentEpoch;
        step := CampaignReturned(campaign.value);
      } else {
        step := NotNewEpoch;
      }
      report := EpochReport(sleeps, currentEpoch, step, pool.GetStats());
    }
  }
}
