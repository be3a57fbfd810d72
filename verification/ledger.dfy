/**
  The NFToken ledger as a value: the five storage fields of the contract
  (src/lib.rs:13-24) gathered into one State, and every operation of the
  contract as a pure function from the state before a call to the outcome
  and the state after it. The class in nftoken.dfy is proved to agree with
  these functions; the lemmas in ledger_props.dfy state what they promise.

  Arithmetic follows the source's u64 fields, assuming the build checks
  for overflow. Where the source would overflow or underflow a u64, the
  call aborts: the outcome is Abort and the state is the one before the
  call, which is what the host's rollback of a panicking call leaves
  behind. Nothing ever wraps around. Gas is not modelled.
 */
module Ledger {

  const MAX_U64: int := 0xFFFF_FFFF_FFFF_FFFF

  /** Rust's u64: token ids, token counts and the minted counter. */
  type uint64 = x: int | 0 <= x <= MAX_U64

  /** The host's account identity: opaque, compared only for equality. */
  type AccountId(==)

  /** What a mutating call does: it returns a bool, or it panics on u64 arithmetic. */
  datatype Outcome = Return(value: bool) | Abort

  /** The contract storage: `owner`, `total_minted`, `id_to_owner`,
      `owner_to_token_count` and `approvals`. */
  datatype State = State(
    owner: AccountId,
    totalMinted: uint64,
    idToOwner: map<uint64, AccountId>,
    ownerToTokenCount: map<AccountId, uint64>,
    approvals: map<uint64, AccountId>)

  // ---------------------------------------------------------------------------
  // Queries

  /** `is_approved`: an approval entry exists for the token and names `approved`. */
  function IsApproved(s: State, tokenId: uint64, approved: AccountId): bool
  {
    tokenId in s.approvals && s.approvals[tokenId] == approved
  }

  /** `total_minted`. */
  function TotalMinted(s: State): uint64
  {
    s.totalMinted
  }

  /** `balance_of`: the stored count, 0 when the account has no entry. */
  function BalanceOf(s: State, account: AccountId): uint64
  {
    if account in s.ownerToTokenCount then s.ownerToTokenCount[account] else 0
  }

  /** `is_token_owner`: the token has an owner and it is `of`. */
  function IsTokenOwner(s: State, of: AccountId, tokenId: uint64): bool
  {
    tokenId in s.idToOwner && s.idToOwner[tokenId] == of
  }

  // ---------------------------------------------------------------------------
  // Mutators

  /** `m` with every id in the half-open range [lo, hi) mapped to `a`. */
  function AssignRange(m: map<uint64, AccountId>, lo: int, hi: int, a: AccountId): map<uint64, AccountId>
  {
    map id: uint64 | id in m || lo <= id < hi :: if lo <= id < hi then a else m[id]
  }

  /** `transfer_impl`: both counts are read before either is written, so a
      transfer to oneself leaves the count one higher. */
  function TransferImpl(s: State, from: AccountId, to: AccountId, tokenId: uint64): (r: (Outcome, State))
    ensures r.0 != Return(true) ==> r.1 == s
    ensures r.1 == s.(idToOwner := r.1.idToOwner, ownerToTokenCount := r.1.ownerToTokenCount)
  {
    if !IsTokenOwner(s, from, tokenId) then (Return(false), s)
    else
      var fromOwnerCount := BalanceOf(s, from);
      var toOwnerCount := BalanceOf(s, to);
      if fromOwnerCount == 0 || toOwnerCount == MAX_U64 then (Abort, s)
      else
        (Return(true),
         s.(idToOwner := s.idToOwner[tokenId := to],
            ownerToTokenCount := s.ownerToTokenCount[from := fromOwnerCount - 1][to := toOwnerCount + 1]))
  }

  /** `mint_impl`: ids `totalMinted + 1` up to, but excluding,
      `totalMinted + value` go to `receiver`; the count of the contract
      owner (not of the receiver) grows by `value`; the counter grows by
      `value`. */
  function MintImpl(s: State, receiver: AccountId, value: uint64): (r: (Outcome, State))
    ensures r.0 != Abort ==> r.0 == Return(true) && r.1.totalMinted == s.totalMinted + value
    ensures r.0 == Abort ==> r.1 == s
    ensures r.1.owner == s.owner && r.1.approvals == s.approvals
  {
    var t := s.totalMinted;
    if t + 1 > MAX_U64 || t + value > MAX_U64 then (Abort, s)
    else
      var fromOwnerCount := BalanceOf(s, s.owner);
      if fromOwnerCount + value > MAX_U64 then (Abort, s)
      else
        (Return(true),
         s.(idToOwner := AssignRange(s.idToOwner, t + 1, t + value, receiver),
            ownerToTokenCount := s.ownerToTokenCount[s.owner := fromOwnerCount + value],
            totalMinted := t + value))
  }

  /** `deploy` on fresh storage: the caller becomes the contract owner and,
      when `initValue > 0`, `initValue` tokens are minted to it. */
  function Deploy(caller: AccountId, initValue: uint64): (r: State)
    ensures r.owner == caller && r.totalMinted == initValue && r.approvals == map[]
  {
    var s := State(caller, 0, map[], map[], map[]);
    if initValue > 0 then MintImpl(s, caller, initValue).1 else s
  }

  /** `transfer`: move the caller's own token. */
  function Transfer(s: State, caller: AccountId, to: AccountId, tokenId: uint64): (r: (Outcome, State))
    ensures r.0 != Return(true) ==> r.1 == s
    ensures r.0 == Return(true) ==> IsTokenOwner(s, caller, tokenId) && IsTokenOwner(r.1, to, tokenId)
  {
    TransferImpl(s, caller, to, tokenId)
  }

  /** `transfer_from`: the owner's path first; otherwise the approved
      delegate's path, which still hands the caller to `transfer_impl` as
      the sender. */
  function TransferFrom(s: State, caller: AccountId, to: AccountId, tokenId: uint64): (r: (Outcome, State))
    ensures r.0 != Return(true) ==> r.1 == s
    ensures r.0 == Return(true) ==> IsTokenOwner(s, caller, tokenId) && IsTokenOwner(r.1, to, tokenId)
  {
    if IsTokenOwner(s, caller, tokenId) then TransferImpl(s, caller, to, tokenId)
    else if tokenId !in s.approvals then (Return(false), s)
    else if s.approvals[tokenId] == caller then TransferImpl(s, caller, to, tokenId)
    else (Return(false), s)
  }

  /** `mint`: only the contract owner may mint. */
  function Mint(s: State, caller: AccountId, to: AccountId, value: uint64): (r: (Outcome, State))
    ensures r.0 != Return(true) ==> r.1 == s
    ensures r.0 == Return(true) ==> caller == s.owner && r.1.totalMinted == s.totalMinted + value
  {
    if caller != s.owner then (Return(false), s)
    else MintImpl(s, to, value)
  }

  /** `approval`: the token's owner grants (`approved`) or revokes `to`. A
      revoke that names another delegate than the stored one changes
      nothing and still returns true. */
  function Approval(s: State, caller: AccountId, to: AccountId, tokenId: uint64, approved: bool): (r: (bool, State))
    ensures !r.0 ==> r.1 == s
    ensures r.0 ==> IsTokenOwner(s, caller, tokenId)
    ensures r.1 == s.(approvals := r.1.approvals)
  {
    if tokenId !in s.idToOwner then (false, s)
    else if s.idToOwner[tokenId] != caller then (false, s)
    else if tokenId !in s.approvals then
      if approved then (true, s.(approvals := s.approvals[tokenId := to]))
      else (false, s)
    else
      var existing := s.approvals[tokenId];
      var afterRevoke := if existing == to && !approved then s.approvals - {tokenId} else s.approvals;
      var afterGrant := if approved then afterRevoke[tokenId := to] else afterRevoke;
      (true, s.(approvals := afterGrant))
  }
}
