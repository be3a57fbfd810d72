/**
  What the NFToken operations promise, stated over the value model in
  ledger.dfy: the effect of each mutator (which map entries change and
  which stay), the rejections, the arithmetic aborts, the quirks of the
  code as written, and an invariant kept by every sequence of calls after
  deployment.
 */
module LedgerProps {
  import opened Ledger

  // ---------------------------------------------------------------------------
  // transfer_impl, transfer, transfer_from

  /** A sender that does not own the token is refused and nothing changes. */
  lemma TransferImplRejectsNonOwner(s: State, from: AccountId, to: AccountId, tokenId: uint64)
    requires !IsTokenOwner(s, from, tokenId)
    ensures TransferImpl(s, from, to, tokenId) == (Return(false), s)
  {
  }

  /** The call panics exactly when the owner's count would drop below 0 or
      the receiver's count would pass the u64 maximum. */
  lemma TransferImplAborts(s: State, from: AccountId, to: AccountId, tokenId: uint64)
    ensures TransferImpl(s, from, to, tokenId).0 == Abort
        <==> IsTokenOwner(s, from, tokenId) && (BalanceOf(s, from) == 0 || BalanceOf(s, to) == MAX_U64)
  {
  }

  /** A successful transfer hands the token to `to`, moves one unit of count
      from `from` to `to` (a net +1 when they are the same account), and
      leaves approvals, the contract owner and the counter alone. */
  lemma TransferImplMovesToken(s: State, from: AccountId, to: AccountId, tokenId: uint64)
    requires IsTokenOwner(s, from, tokenId)
    requires 0 < BalanceOf(s, from) && BalanceOf(s, to) < MAX_U64
    ensures var (r, t) := TransferImpl(s, from, to, tokenId);
      && r == Return(true)
      && t.idToOwner == s.idToOwner[tokenId := to]
      && (from != to ==> BalanceOf(t, from) == BalanceOf(s, from) - 1 && BalanceOf(t, to) == BalanceOf(s, to) + 1)
      && (from == to ==> BalanceOf(t, from) == BalanceOf(s, from) + 1)
      && (forall a :: a != from && a != to ==> BalanceOf(t, a) == BalanceOf(s, a))
      && t.approvals == s.approvals && t.owner == s.owner && t.totalMinted == s.totalMinted
  {
  }

  /** `transfer` returns false exactly when the caller does not own the
      token, and true exactly when it does and no count overflows. */
  lemma TransferSucceedsIffOwner(s: State, caller: AccountId, to: AccountId, tokenId: uint64)
    ensures Transfer(s, caller, to, tokenId).0 == Return(false) <==> !IsTokenOwner(s, caller, tokenId)
    ensures Transfer(s, caller, to, tokenId).0 == Return(true)
        <==> IsTokenOwner(s, caller, tokenId) && 0 < BalanceOf(s, caller) && BalanceOf(s, to) < MAX_U64
  {
  }

  /** The delegate's branch of `transfer_from` never succeeds: it passes the
      delegate as the sender, and the sender is then not the owner. */
  lemma DelegateTransferFails(s: State, caller: AccountId, to: AccountId, tokenId: uint64)
    requires !IsTokenOwner(s, caller, tokenId) && IsApproved(s, tokenId, caller)
    ensures TransferFrom(s, caller, to, tokenId) == (Return(false), s)
  {
  }

  /** Hence `transfer_from` behaves exactly as `transfer` on every input. */
  lemma TransferFromIsTransfer(s: State, caller: AccountId, to: AccountId, tokenId: uint64)
    ensures TransferFrom(s, caller, to, tokenId) == Transfer(s, caller, to, tokenId)
  {
  }

  // ---------------------------------------------------------------------------
  // mint_impl, mint, deploy

  /** The ids a mint from counter `t` of `value` tokens gives out: `t + 1`
      up to, but excluding, `t + value`. */
  function Range(lo: int, hi: int): (r: set<uint64>)
    requires 0 <= lo && hi <= MAX_U64 + 1
    ensures forall id :: id in r <==> lo <= id < hi
    decreases hi - lo
  {
    if hi <= lo then {} else Range(lo, hi - 1) + {hi - 1}
  }

  lemma {:induction false} RangeSize(lo: int, hi: int)
    requires 0 <= lo <= hi <= MAX_U64 + 1
    ensures |Range(lo, hi)| == hi - lo
    decreases hi - lo
  {
    if lo == hi {
      assert Range(lo, hi) == {};
    } else {
      assert Range(lo, hi) == Range(lo, hi - 1) + {hi - 1};
      RangeSize(lo, hi - 1);
    }
  }

  /** When `mint_impl` panics: the id range or the counter passes the u64
      maximum (src/lib.rs:208-209, 221), or the contract owner's count does
      (src/lib.rs:218). */
  lemma MintImplAborts(s: State, receiver: AccountId, value: uint64)
    ensures MintImpl(s, receiver, value).0 == Abort
        <==> s.totalMinted == MAX_U64 || s.totalMinted + value > MAX_U64
             || BalanceOf(s, s.owner) + value > MAX_U64
  {
  }

  /** A mint that does not panic gives the ids of the half-open range to the
      receiver and keeps every other id's owner, credits `value` to the
      contract owner (not the receiver), and advances the counter by
      `value`. */
  lemma MintImplEffect(s: State, receiver: AccountId, value: uint64)
    requires MintImpl(s, receiver, value).0 != Abort
    ensures var (r, t) := MintImpl(s, receiver, value);
      && r == Return(true)
      && t.totalMinted == s.totalMinted + value
      && (forall id :: s.totalMinted + 1 <= id < s.totalMinted + value ==> IsTokenOwner(t, receiver, id))
      && (forall id :: !(s.totalMinted + 1 <= id < s.totalMinted + value) ==>
            (id in t.idToOwner <==> id in s.idToOwner) && (id in s.idToOwner ==> t.idToOwner[id] == s.idToOwner[id]))
      && BalanceOf(t, s.owner) == BalanceOf(s, s.owner) + value
      && (forall a :: a != s.owner ==> BalanceOf(t, a) == BalanceOf(s, a))
      && t.owner == s.owner && t.approvals == s.approvals
  {
  }

  /** Every owned id lies between 1 and `totalMinted - 1`. */
  ghost predicate IdsBelowCounter(s: State)
  {
    forall id :: id in s.idToOwner ==> 1 <= id < s.totalMinted
  }

  /** The off-by-one: from a state whose ids are below the counter, a mint of
      `value >= 1` creates exactly `value - 1` new ids, and the last id it
      accounts for, `totalMinted + value`, stays without an owner. */
  lemma MintImplShortfall(s: State, receiver: AccountId, value: uint64)
    requires IdsBelowCounter(s)
    requires 1 <= value
    requires MintImpl(s, receiver, value).0 != Abort
    ensures var t := MintImpl(s, receiver, value).1;
      && |t.idToOwner.Keys - s.idToOwner.Keys| == value - 1
      && s.totalMinted + value !in t.idToOwner
  {
    var t := MintImpl(s, receiver, value).1;
    var lo, hi := s.totalMinted + 1, s.totalMinted + value;
    assert t.idToOwner == AssignRange(s.idToOwner, lo, hi, receiver);
    forall id: uint64
      ensures id in t.idToOwner.Keys - s.idToOwner.Keys <==> id in Range(lo, hi)
    {
      assert id in s.idToOwner ==> id < lo;
    }
    assert t.idToOwner.Keys - s.idToOwner.Keys == Range(lo, hi);
    RangeSize(lo, hi);
  }

  /** Only the contract owner can mint; anyone else is refused and nothing changes. */
  lemma MintByNonOwnerRejected(s: State, caller: AccountId, to: AccountId, value: uint64)
    requires caller != s.owner
    ensures Mint(s, caller, to, value) == (Return(false), s)
  {
  }

  /** Deployment: the deployer owns the contract and ids 1 to `initValue - 1`,
      its count is `initValue`, the counter is `initValue`, and there are no
      approvals. */
  lemma DeployEffect(caller: AccountId, initValue: uint64)
    ensures var s := Deploy(caller, initValue);
      && s.owner == caller
      && TotalMinted(s) == initValue
      && s.idToOwner.Keys == Range(1, initValue)
      && (forall id :: id in s.idToOwner ==> s.idToOwner[id] == caller)
      && BalanceOf(s, caller) == initValue
      && (forall a :: a != caller ==> BalanceOf(s, a) == 0)
      && s.approvals == map[]
  {
  }

  // ---------------------------------------------------------------------------
  // Balances are not token counts

  /** The ids `a` owns. */
  function OwnedIds(s: State, a: AccountId): set<uint64>
  {
    set id | id in s.idToOwner && s.idToOwner[id] == a
  }

  /** Right after deployment with `initValue >= 1` the deployer's count is
      one more than the number of ids it owns. */
  lemma DeployBalanceExceedsOwnedIds(caller: AccountId, initValue: uint64)
    requires 1 <= initValue
    ensures var s := Deploy(caller, initValue);
      |OwnedIds(s, caller)| == initValue - 1 && BalanceOf(s, caller) == initValue
  {
    var s := Deploy(caller, initValue);
    DeployEffect(caller, initValue);
    assert OwnedIds(s, caller) == Range(1, initValue);
    RangeSize(1, initValue);
  }

  /** A receiver of a mint other than the contract owner owns ids but has a
      count of 0, so its first transfer underflows `from_owner_count - 1`. */
  lemma MintReceiverTransferUnderflows(alice: AccountId, bob: AccountId)
    requires alice != bob
    ensures var s := Mint(Deploy(alice, 0), alice, bob, 3).1;
      && IsTokenOwner(s, bob, 1)
      && BalanceOf(s, bob) == 0
      && Transfer(s, bob, alice, 1).0 == Abort
  {
  }

  // ---------------------------------------------------------------------------
  // approval

  /** A token without an owner, or a caller that is not its owner: refused,
      nothing changes. */
  lemma ApprovalRejectsNonOwner(s: State, caller: AccountId, to: AccountId, tokenId: uint64, approved: bool)
    requires !IsTokenOwner(s, caller, tokenId)
    ensures Approval(s, caller, to, tokenId, approved) == (false, s)
  {
  }

  /** A grant by the owner always succeeds, whether or not an entry exists:
      `to` becomes the one approved account for the token, and only the
      approvals change. */
  lemma ApprovalGrant(s: State, caller: AccountId, to: AccountId, tokenId: uint64)
    requires IsTokenOwner(s, caller, tokenId)
    ensures var (ok, t) := Approval(s, caller, to, tokenId, true);
      && ok
      && t == s.(approvals := s.approvals[tokenId := to])
      && IsApproved(t, tokenId, to)
      && (forall other :: other != to ==> !IsApproved(t, tokenId, other))
  {
  }

  /** A revoke by the owner: with no entry it fails; with an entry naming
      `to` it removes it; with an entry naming someone else it changes
      nothing yet returns true. */
  lemma ApprovalRevoke(s: State, caller: AccountId, to: AccountId, tokenId: uint64)
    requires IsTokenOwner(s, caller, tokenId)
    ensures var (ok, t) := Approval(s, caller, to, tokenId, false);
      && (tokenId !in s.approvals ==> !ok && t == s)
      && (IsApproved(s, tokenId, to) ==> ok && t == s.(approvals := s.approvals - {tokenId}) && !IsApproved(t, tokenId, to))
      && (tokenId in s.approvals && !IsApproved(s, tokenId, to) ==> ok && t == s)
  {
  }

  // ---------------------------------------------------------------------------
  // Any sequence of calls

  /** One call of a mutating entry point, with its caller. */
  datatype Call =
    | TransferCall(caller: AccountId, to: AccountId, tokenId: uint64)
    | TransferFromCall(caller: AccountId, to: AccountId, tokenId: uint64)
    | MintCall(caller: AccountId, to: AccountId, value: uint64)
    | ApprovalCall(caller: AccountId, to: AccountId, tokenId: uint64, approved: bool)

  function Apply(s: State, c: Call): State
  {
    match c
    case TransferCall(caller, to, tokenId) => Transfer(s, caller, to, tokenId).1
    case TransferFromCall(caller, to, tokenId) => TransferFrom(s, caller, to, tokenId).1
    case MintCall(caller, to, value) => Mint(s, caller, to, value).1
    case ApprovalCall(caller, to, tokenId, approved) => Approval(s, caller, to, tokenId, approved).1
  }

  function Run(s: State, calls: seq<Call>): State
    decreases |calls|
  {
    if calls == [] then s else Run(Apply(s, calls[0]), calls[1..])
  }

  /** The state invariant: every owned id lies in 1 .. totalMinted - 1, and
      approvals exist only for owned ids. */
  ghost predicate Valid(s: State)
  {
    IdsBelowCounter(s) && s.approvals.Keys <= s.idToOwner.Keys
  }

  /** How a state may evolve: the contract owner stays, the counter never
      decreases, and no id loses its owner. */
  ghost predicate Evolves(s: State, t: State)
  {
    t.owner == s.owner && s.totalMinted <= t.totalMinted && s.idToOwner.Keys <= t.idToOwner.Keys
  }

  lemma DeployValid(caller: AccountId, initValue: uint64)
    ensures Valid(Deploy(caller, initValue))
  {
  }

  lemma ApplyKeepsValid(s: State, c: Call)
    requires Valid(s)
    ensures Valid(Apply(s, c)) && Evolves(s, Apply(s, c))
  {
  }

  lemma {:induction false} RunKeepsValid(s: State, calls: seq<Call>)
    requires Valid(s)
    ensures Valid(Run(s, calls)) && Evolves(s, Run(s, calls))
    decreases |calls|
  {
    if calls != [] {
      ApplyKeepsValid(s, calls[0]);
      RunKeepsValid(Apply(s, calls[0]), calls[1..]);
    }
  }

  /** After deployment and any calls, the invariant holds and only the
      deployer can mint: anyone else is refused and changes nothing. */
  lemma OnlyDeployerMints(deployer: AccountId, initValue: uint64, calls: seq<Call>,
                          caller: AccountId, to: AccountId, value: uint64)
    requires caller != deployer
    ensures var s := Run(Deploy(deployer, initValue), calls);
      Valid(s) && Mint(s, caller, to, value) == (Return(false), s)
  {
    DeployValid(deployer, initValue);
    DeployEffect(deployer, initValue);
    RunKeepsValid(Deploy(deployer, initValue), calls);
  }
}
