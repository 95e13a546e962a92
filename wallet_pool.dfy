/**
 * WalletPool (`MultiWalletManager`): the wallets built from the configured
 * private keys, a round-robin cursor over them, and per-wallet success and
 * failure counters that attempts update by address.
 */
module WalletPool {
  import Text
  import opened Common

  /** An account address, as ethers formats it. */
  type Address = string

  /** A signer: the (trimmed) private key and the address derived from it. */
  datatype Wallet = Wallet(privateKey: string, address: Address)

  /** One entry of `getStats`. */
  datatype WalletStats = WalletStats(address: Address, successes: nat, failures: nat, successRate: real)

  /** `wallets.findIndex(w => w.address === a)`: the first wallet with that address, or -1. */
  function FindIndex(wallets: seq<Wallet>, a: Address): (r: int)
    ensures -1 <= r < |wallets|
    ensures r == -1 <==> forall i :: 0 <= i < |wallets| ==> wallets[i].address != a
    ensures r >= 0 ==> wallets[r].address == a && forall i :: 0 <= i < r ==> wallets[i].address != a
  {
    if wallets == [] then -1
    else if wallets[0].address == a then 0
    else
      var r := FindIndex(wallets[1..], a);
      if r == -1 then -1 else r + 1
  }

  /** The counters after `counts[i]++` when `i` is a found index; unchanged for -1. */
  function Bump(counts: seq<nat>, i: int): (r: seq<nat>)
    ensures |r| == |counts|
    ensures forall k :: 0 <= k < |counts| && k != i ==> r[k] == counts[k]
    ensures 0 <= i < |counts| ==> r[i] == counts[i] + 1
  {
    if 0 <= i < |counts| then counts[i := counts[i] + 1] else counts
  }

  /**
   * `s / (s + f || 1)`: the share of attempts that succeeded; a wallet
   * without attempts divides by one instead of zero.
   */
  function SuccessRate(successes: nat, failures: nat): (rate: real)
    ensures 0.0 <= rate <= 1.0
    ensures successes + failures == 0 ==> rate == 0.0
    ensures successes + failures > 0 ==> rate * (successes + failures) as real == successes as real
  {
    var attempts := successes + failures;
    successes as real / (if attempts == 0 then 1 else attempts) as real
  }

  /** Where the cursor moves after handing out the wallet at `i`. */
  function NextIndex(i: nat, n: nat): (j: nat)
    requires n > 0
    ensures j < n
  {
    (i + 1) % n
  }

  /** The cursor after `k` calls of `getNextWallet` from the freshly built pool. */
  function CursorAfter(n: nat, k: nat): nat
    requires n > 0
  {
    if k == 0 then 0 else NextIndex(CursorAfter(n, k - 1), n)
  }

  lemma {:induction false} CursorAfterIsMod(n: nat, k: nat)
    requires n > 0
    ensures CursorAfter(n, k) == k % n
  {
    if k > 0 {
      CursorAfterIsMod(n, k - 1);
      var q, c := (k - 1) / n, (k - 1) % n;
      assert CursorAfter(n, k) == (c + 1) % n;
      var qn := q * n;
      assert k == qn + c + 1;
      if c + 1 < n {
        ModUnique(c + 1, n, 0, c + 1);
        ModUnique(k, n, q, c + 1);
      } else {
        ModUnique(n, n, 1, 0);
        assert (q + 1) * n == qn + n;
        ModUnique(k, n, q + 1, 0);
      }
    }
  }

  /** The wallets handed out by `k` consecutive `getNextWallet` calls on a fresh pool. */
  function Served(wallets: seq<Wallet>, k: nat): (r: seq<Wallet>)
    requires |wallets| > 0
    ensures |r| == k
  {
    if k == 0 then [] else Served(wallets, k - 1) + [wallets[CursorAfter(|wallets|, k - 1)]]
  }

  /** Call number `j` (from zero) hands out wallet `j mod N`. */
  lemma {:induction false} ServedIsCyclic(wallets: seq<Wallet>, k: nat)
    requires |wallets| > 0
    ensures forall j :: 0 <= j < k ==> Served(wallets, k)[j] == wallets[j % |wallets|]
  {
    if k > 0 {
      ServedIsCyclic(wallets, k - 1);
      CursorAfterIsMod(|wallets|, k - 1);
      assert Served(wallets, k)[..k - 1] == Served(wallets, k - 1);
    }
  }

  /**
   * N calls on a fresh pool of N wallets hand out every wallet once, in
   * order, and bring the cursor back to the first.
   */
  lemma RoundRobinServesEachOnce(wallets: seq<Wallet>)
    requires |wallets| > 0
    ensures Served(wallets, |wallets|) == wallets
    ensures CursorAfter(|wallets|, |wallets|) == 0
  {
    var n := |wallets|;
    ServedIsCyclic(wallets, n);
    CursorAfterIsMod(n, n);
    forall j | 0 <= j < n
      ensures Served(wallets, n)[j] == wallets[j]
    {
      assert j % n == j;
    }
  }

  class MultiWalletManager {
    const wallets: seq<Wallet>
    var currentIndex: nat
    const successCounts: array<nat>
    const failCounts: array<nat>

    ghost predicate Valid()
      reads this
    {
      && successCounts.Length == |wallets|
      && failCounts.Length == |wallets|
      && successCounts != failCounts
      && (if |wallets| == 0 then currentIndex == 0 else currentIndex < |wallets|)
    }

    /**
     * One wallet per key, from the trimmed key; `deriveAddress` stands for
     * ethers' key-to-address derivation. All counters start at zero.
     */
    constructor (privateKeys: seq<string>, deriveAddress: string -> Address)
      ensures Valid() && fresh(successCounts) && fresh(failCounts)
      ensures |wallets| == |privateKeys|
      ensures forall i :: 0 <= i < |privateKeys| ==>
                wallets[i] == Wallet(Text.Trim(privateKeys[i]), deriveAddress(Text.Trim(privateKeys[i])))
      ensures currentIndex == 0
      ensures forall i :: 0 <= i < |wallets| ==> successCounts[i] == 0 && failCounts[i] == 0
    {
      wallets := seq(|privateKeys|, i requires 0 <= i < |privateKeys| =>
        Wallet(Text.Trim(privateKeys[i]), deriveAddress(Text.Trim(privateKeys[i]))));
      currentIndex := 0;
      successCounts := new nat[|privateKeys|](_ => 0);
      failCounts := new nat[|privateKeys|](_ => 0);
    }

    /** `getNextWallet`: the wallet under the cursor; the cursor moves on, wrapping. */
    method GetNextWallet() returns (w: Wallet)
      requires Valid() && |wallets| > 0
      modifies this`currentIndex
      ensures Valid()
      ensures w == wallets[old(currentIndex)]
      ensures currentIndex == NextIndex(old(currentIndex), |wallets|)
    {
      w := wallets[currentIndex];
      currentIndex := (currentIndex + 1) % |wallets|;
    }

    /** `recordSuccess`: one more success for the first wallet with that address, if any. */
    method RecordSuccess(a: Address)
      requires Valid()
      modifies successCounts
      ensures Valid()
      ensures successCounts[..] == Bump(old(successCounts[..]), FindIndex(wallets, a))
      ensures failCounts[..] == old(failCounts[..])
    {
      var index := FindIndex(wallets, a);
      if index != -1 {
        successCounts[index] := successCounts[index] + 1;
      }
    }

    /** `recordFailure`: one more failure for the first wallet with that address, if any. */
    method RecordFailure(a: Address)
      requires Valid()
      modifies failCounts
      ensures Valid()
      ensures failCounts[..] == Bump(old(failCounts[..]), FindIndex(wallets, a))
      ensures successCounts[..] == old(successCounts[..])
    {
      var index := FindIndex(wallets, a);
      if index != -1 {
        failCounts[index] := failCounts[index] + 1;
      }
    }

    /** `getStats`: per wallet, in order, its address, its two counters and its success rate. */
    function GetStats(): (stats: seq<WalletStats>)
      requires Valid()
      reads this, successCounts, failCounts
      ensures |stats| == |wallets|
      ensures forall i :: 0 <= i < |stats| ==>
                && stats[i].address == wallets[i].address
                && stats[i].successes == successCounts[i]
                && stats[i].failures == failCounts[i]
                && stats[i].successRate == SuccessRate(successCounts[i], failCounts[i])
                && 0.0 <= stats[i].successRate <= 1.0
                && (stats[i].successes + stats[i].failures == 0 ==> stats[i].successRate == 0.0)
    {
      seq(|wallets|, i requires 0 <= i < |wallets| reads successCounts, failCounts =>
        WalletStats(wallets[i].address, successCounts[i], failCounts[i],
                    SuccessRate(successCounts[i], failCounts[i])))
    }
  }
}
