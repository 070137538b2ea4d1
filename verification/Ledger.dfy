/**
 * The XRP Ledger as the service can observe it: one validated chain that only grows, and
 * endpoints that answer honestly from a lagging, possibly incomplete copy of it.
 */
module Ledger {
  import opened Wrappers
  import opened Transactions

  /**
   * One validated ledger version. `txs` holds the transactions the service prepared, each with
   * its result; all other activity shows only in the account Sequences. `next` is the next usable
   * Sequence of every account ever funded, `existing` the accounts present in this version.
   */
  datatype Version = Version(txs: map<string, string>, next: map<string, nat>, existing: set<string>)

  /** Ledger index i is chain[i - 1]. */
  type Chain = seq<Version>

  function NextSequence(v: Version, account: string): nat {
    if account in v.next then v.next[account] else 0
  }

  function SequenceAt(chain: Chain, index: nat, account: string): nat
    requires 1 <= index <= |chain|
  {
    NextSequence(chain[index - 1], account)
  }

  /** The account's Sequence in validated ledger `index`, None when the account does not exist there. */
  function AccountAt(chain: Chain, index: nat, account: string): Option<nat>
    requires 1 <= index <= |chain|
  {
    if account in chain[index - 1].existing then Some(SequenceAt(chain, index, account)) else None
  }

  /** A validated transaction carries a tes or tec result. */
  predicate IsFinalResult(result: string) {
    "tes" <= result || "tec" <= result
  }

  /** The ledger's admission rule for blob `b` in the version that follows `before` as number `index`. */
  predicate Admissible(before: Version, after: Version, index: nat, b: string) {
    && b in after.txs && b == Upper(b)
    && SignedHeader(b).Some?
    && (var h := SignedHeader(b).value;
        && index <= h.lastLedger
        && NextSequence(before, h.account) <= h.sequence < NextSequence(after, h.account))
    && IsFinalResult(after.txs[b])
  }

  predicate SameSequence(a: string, b: string) {
    && SignedHeader(a).Some? && SignedHeader(b).Some?
    && SignedHeader(a).value.account == SignedHeader(b).value.account
    && SignedHeader(a).value.sequence == SignedHeader(b).value.sequence
  }

  /** `after` may follow `before`: Sequences never fall, and every included blob is admissible. */
  predicate Follows(before: Version, after: Version, index: nat) {
    && (forall account | account in before.next :: before.next[account] <= NextSequence(after, account))
    && (forall b | b in after.txs :: Admissible(before, after, index, b))
    && (forall a, b | a in after.txs && b in after.txs :: SameSequence(a, b) ==> a == b)
  }

  ghost predicate ChainOk(chain: Chain) {
    && |chain| >= 1
    && chain[0].txs == map[]
    && forall i :: 2 <= i <= |chain| ==> LinkOk(chain, i)
  }

  ghost predicate LinkOk(chain: Chain, i: nat)
    requires 2 <= i <= |chain|
  {
    Follows(chain[i - 2], chain[i - 1], i)
  }

  predicate IncludedAt(chain: Chain, index: nat, b: string) {
    1 <= index <= |chain| && b in chain[index - 1].txs
  }

  /** No version of the chain contains `b`. */
  ghost predicate NeverIncluded(chain: Chain, b: string) {
    forall i :: 1 <= i <= |chain| ==> !IncludedAt(chain, i, b)
  }

  /** Every included blob was included in the window that its preparation opened. */
  ghost predicate RecentOk(chain: Chain) {
    forall i: nat, b | IncludedAt(chain, i, b) ::
      SignedHeader(b).Some? && SignedHeader(b).value.lastLedger < i + LAST_LEDGER_OFFSET
  }

  /** No signed form of the prepared blob is in any version of the chain. */
  ghost predicate FormNeverIncluded(chain: Chain, prepared: string) {
    forall i: nat, b | IncludedAt(chain, i, b) :: Strip(b) != Some(prepared)
  }

  lemma {:induction false} SequencesNeverFall(chain: Chain, i: nat, j: nat, account: string)
    requires ChainOk(chain) && 1 <= i <= j <= |chain|
    ensures SequenceAt(chain, i, account) <= SequenceAt(chain, j, account)
  {
    if i < j {
      SequencesNeverFall(chain, i, j - 1, account);
      assert LinkOk(chain, j);
    }
  }

  lemma InclusionFacts(chain: Chain, index: nat, b: string)
    requires ChainOk(chain) && IncludedAt(chain, index, b)
    ensures index >= 2 && Admissible(chain[index - 2], chain[index - 1], index, b)
  {
    if index >= 2 {
      assert LinkOk(chain, index);
    }
  }

  lemma InclusionSpendsSequence(chain: Chain, index: nat, b: string)
    requires ChainOk(chain) && IncludedAt(chain, index, b)
    ensures index >= 2 && SignedHeader(b).Some?
    ensures var h := SignedHeader(b).value;
      SequenceAt(chain, index - 1, h.account) <= h.sequence < SequenceAt(chain, index, h.account)
  {
    InclusionFacts(chain, index, b);
  }

  /** An account's Sequence is spent at most once, by one blob in one ledger. */
  lemma SequenceSpentOnce(chain: Chain, i: nat, a: string, j: nat, b: string)
    requires ChainOk(chain) && IncludedAt(chain, i, a) && IncludedAt(chain, j, b) && SameSequence(a, b)
    ensures i == j && a == b
  {
    if i < j {
      NotSpentAgain(chain, i, a, j, b);
    } else if j < i {
      NotSpentAgain(chain, j, b, i, a);
    } else {
      InclusionFacts(chain, i, a);
      assert LinkOk(chain, i);
    }
  }

  lemma NotSpentAgain(chain: Chain, i: nat, a: string, j: nat, b: string)
    requires ChainOk(chain) && i < j && IncludedAt(chain, i, a) && IncludedAt(chain, j, b)
    ensures !SameSequence(a, b)
  {
    InclusionSpendsSequence(chain, i, a);
    InclusionSpendsSequence(chain, j, b);
    SequencesNeverFall(chain, i, j - 1, SignedHeader(a).value.account);
  }

  // ---- endpoints ---------------------------------------------------------------------------

  /**
   * The connected endpoint: its newest validated ledger, the versions it still holds, and whether it
   * is prompt, that is, never reports a transaction as pending once its ledger has reached the end of
   * the range it is asked for.
   */
  datatype Endpoint = Endpoint(head: nat, held: set<nat>, prompt: bool)

  predicate EndpointOk(chain: Chain, e: Endpoint) {
    1 <= e.head <= |chain|
  }

  predicate FullHistory(e: Endpoint) {
    forall i | 1 <= i <= e.head :: i in e.held
  }

  datatype AccountInfo = AccountInfo(
    ledgerIndex: Option<nat>, sequence: nat, regularKey: Option<string>, disableMasterKey: bool)

  datatype TxLookup = TxLookup(
    hash: Option<string>, validated: bool, ledgerIndex: Option<nat>, transactionResult: Option<string>)

  datatype TxSearch = Found(lookup: TxLookup) | NotFound(searchedAll: bool)

  /** `account` in the endpoint's newest validated ledger; key settings are not part of the chain. */
  predicate HonestAccount(chain: Chain, e: Endpoint, account: string, info: Option<AccountInfo>)
    requires EndpointOk(chain, e)
  {
    match info
    case None => AccountAt(chain, e.head, account).None?
    case Some(i) => AccountAt(chain, e.head, account) == Some(i.sequence) && i.ledgerIndex == Some(e.head)
  }

  /**
   * The answer to `tx`: a validated hit from a held ledger, else possibly an unvalidated one,
   * else a miss that says searched_all exactly when every ledger of the range is held.
   */
  predicate HonestSearch(chain: Chain, e: Endpoint, hash: string, min: nat, max: nat, s: TxSearch)
    requires EndpointOk(chain, e)
  {
    match s
    case Found(lookup) =>
      if lookup.validated then
        && lookup.hash == Some(hash) && lookup.ledgerIndex.Some? && lookup.transactionResult.Some?
        && (var i := lookup.ledgerIndex.value;
            && 1 <= i <= e.head && i in e.held
            && exists b | b in chain[i - 1].txs ::
                 TransactionHash(b) == hash && chain[i - 1].txs[b] == lookup.transactionResult.value)
      else
        !HeldHit(chain, e, hash) && (e.prompt ==> e.head < max)
    case NotFound(searchedAll) =>
      && !HeldHit(chain, e, hash)
      && (searchedAll <==> forall i | min <= i <= max :: i <= e.head && i in e.held)
  }

  /** The endpoint holds a ledger that contains a transaction with this hash. */
  predicate HeldHit(chain: Chain, e: Endpoint, hash: string)
    requires EndpointOk(chain, e)
  {
    exists i | 1 <= i <= e.head :: i in e.held && exists b | b in chain[i - 1].txs :: TransactionHash(b) == hash
  }

  /** No ledger in the range contains a transaction with this hash, and the range is complete. */
  ghost predicate AbsentInRange(chain: Chain, hash: string, min: nat, max: nat) {
    && (min <= max ==> max <= |chain|)
    && forall i, b :: min <= i <= max && IncludedAt(chain, i, b) ==> TransactionHash(b) != hash
  }

  lemma CompleteMissIsAbsence(chain: Chain, e: Endpoint, hash: string, min: nat, max: nat)
    requires EndpointOk(chain, e) && min >= 1
    requires HonestSearch(chain, e, hash, min, max, NotFound(true))
    ensures AbsentInRange(chain, hash, min, max)
  {
    forall i, b | min <= i <= max && IncludedAt(chain, i, b) ensures TransactionHash(b) != hash {
      assert i <= e.head && i in e.held;
    }
    if min <= max {
      assert max in e.held;
    }
  }

  /** A blob whose LastLedgerSequence is not ahead of the chain and that is not in its range is nowhere. */
  lemma AbsentInWindowIsNeverIncluded(chain: Chain, b: string, last: nat)
    requires ChainOk(chain) && RecentOk(chain) && b == Upper(b)
    requires SignedHeader(b).Some? && SignedHeader(b).value.lastLedger == last
    requires last >= LAST_LEDGER_OFFSET
    requires AbsentInRange(chain, TransactionHash(b), last - LAST_LEDGER_OFFSET + 1, last)
    ensures NeverIncluded(chain, b)
  {
    forall i | 1 <= i <= |chain| ensures !IncludedAt(chain, i, b) {
      if IncludedAt(chain, i, b) {
        InclusionFacts(chain, i, b);
      }
    }
  }

  /** A Sequence that is still usable at or after the window was spent by no form of the prepared blob. */
  lemma UnspentFormIsNeverIncluded(chain: Chain, prepared: string, h: Header, at: nat)
    requires ChainOk(chain) && HeaderOf(prepared) == Some(h)
    requires h.lastLedger < at <= |chain| && SequenceAt(chain, at, h.account) == h.sequence
    ensures FormNeverIncluded(chain, prepared)
  {
    forall i: nat, b | IncludedAt(chain, i, b) && Strip(b) == Some(prepared) ensures false {
      InclusionFacts(chain, i, b);
      SequencesNeverFall(chain, i, at, h.account);
    }
  }

  /** No form of a prepared blob whose window is over enters the next version. */
  lemma FormStaysOut(chain: Chain, version: Version, prepared: string, h: Header)
    requires |chain| >= 1 && Follows(chain[|chain| - 1], version, |chain| + 1)
    requires HeaderOf(prepared) == Some(h) && h.lastLedger <= |chain| && FormNeverIncluded(chain, prepared)
    ensures FormNeverIncluded(chain + [version], prepared)
  {
    var longer := chain + [version];
    forall i: nat, b | IncludedAt(longer, i, b) ensures Strip(b) != Some(prepared) {
      if i <= |chain| {
        assert IncludedAt(chain, i, b);
      }
    }
  }
}
