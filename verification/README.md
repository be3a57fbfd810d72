# NFToken ledger in Dafny

A model of `NFToken`, a small non-fungible token contract for the ink!
smart-contract host (`src/lib.rs`). The contract keeps five storage fields:
the contract `owner`, the `total_minted` counter, and three maps
(`id_to_owner`, `owner_to_token_count`, `approvals`). Its entry points are
the queries `is_approved`, `total_minted` and `balance_of`, and the mutators
`deploy`, `transfer`, `transfer_from`, `mint` and `approval`, built on the
private helpers `is_token_owner`, `transfer_impl` and `mint_impl`.

The project has three files:

- `ledger.dfy`, module `Ledger`: `uint64` (Rust's `u64` as a bounded
  subtype of `int`), `AccountId` (an opaque type with equality), the storage
  as a `State` value, and every entry point as a pure function from the state
  before a call to its outcome and the state after it.
- `nftoken.dfy`, module `Contract`: the class `NFToken` with the five fields
  updated in place. The queries are functions that read the object. The
  mutators are methods that modify it. `MintImpl` keeps the source's loop
  over the id range. Every member is proved equal to its `Ledger` function.
  `ItWorks` replays the repository's own test against these contracts.
- `ledger_props.dfy`, module `LedgerProps`: what the operations promise.
  This covers rejections, arithmetic aborts, exactly which entries change,
  and the quirks of the code. It also proves an invariant kept by every
  sequence of calls after deployment.

The caller identity is an explicit `caller` parameter. Whether a `u64`
overflow or underflow in the source (src/lib.rs:200-201, 208-209, 218, 221)
panics or wraps depends on the crate's `overflow-checks` build setting. The
model assumes overflow checks are on, as in the debug build the repository's
test runs under: such a call panics and the host rolls it back. The model
gives it the outcome `Abort` and leaves the state as it was before the call.
Nothing wraps around.

The model follows the code as written, including its quirks:

- `mint_impl` walks the half-open range `total_minted + 1 .. total_minted +
  value`. So it assigns `value - 1` ids, and none when `value <= 1`. The
  counter still grows by `value`.
- `mint_impl` credits `value` to the contract owner's count, not to the
  receiver's.
- The delegate branch of `transfer_from` passes the delegate to
  `transfer_impl` as the sender. That call then fails the ownership check,
  so a delegate never succeeds, and `transfer_from` behaves exactly like
  `transfer`.
- Revoking with a delegate other than the stored one returns true and
  changes nothing.
- `transfer_impl` reads both counts before writing either, so a transfer to
  oneself raises the count by one.
- Transfers keep the token's approval entry.
- A count does not always equal the number of ids its account owns. A mint
  receiver other than the contract owner holds ids with a count of 0, and its
  first transfer underflows.

Where the repository's own comments and test suggest other behaviour, the
model follows the code:

- The doc comment of `mint` says it "mints a specified amount of new tokens
  to a given address" (src/lib.rs:114). The code creates one id fewer than
  the amount, and credits the amount to the contract owner's count rather
  than to that address (src/lib.rs:208-218).
- The comment in `transfer_from` says "carry out transfer if caller is
  approved" (src/lib.rs:100). The call that follows passes the delegate as
  the sender, so the transfer never happens (src/lib.rs:103, 190).
- One would expect an NFT ledger to keep every account's count equal to the
  number of ids it owns, and every owned id at most the counter. The code
  keeps the stronger bound `id < total_minted` and does not keep the count
  equality.
- The repository's test (src/lib.rs:233-275) makes every call as the
  deploying account `alice`, including `transfer_from(bob, 3)` by the token's
  owner; `ItWorks` does the same.

## Model

| member | source | states |
|---|---|---|
| `Contract.NFToken.Deploy` | src/lib.rs:29-37 | on fresh storage, the state becomes `Ledger.Deploy(caller, initValue)` |
| `Contract.NFToken.IsApproved` | src/lib.rs:49-59 | equals `Ledger.IsApproved`: an approval entry exists for the id and names the candidate; reads only |
| `Contract.NFToken.TotalMinted` | src/lib.rs:62-65 | equals the stored counter `Ledger.TotalMinted`; reads only |
| `Contract.NFToken.BalanceOf` | src/lib.rs:68-71 | equals `Ledger.BalanceOf`: the stored count, 0 for an account with no entry; reads only |
| `Contract.NFToken.IsTokenOwner` | src/lib.rs:176-186 | equals `Ledger.IsTokenOwner`: the id has an owner and it is the given account |
| `Contract.NFToken.Transfer` | src/lib.rs:74-81 | outcome and new state are those of `Ledger.Transfer` on the old state |
| `Contract.NFToken.TransferFrom` | src/lib.rs:84-112 | outcome and new state are those of `Ledger.TransferFrom` on the old state |
| `Contract.NFToken.Mint` | src/lib.rs:115-126 | outcome and new state are those of `Ledger.Mint` on the old state |
| `Contract.NFToken.Approval` | src/lib.rs:129-168 | result and new state are those of `Ledger.Approval`; owner, counter, owners and counts are unchanged |
| `Contract.NFToken.TransferImpl` | src/lib.rs:189-203 | outcome and new state are those of `Ledger.TransferImpl`; owner, counter and approvals are unchanged |
| `Contract.NFToken.MintImpl` | src/lib.rs:206-223 | the loop over the id range yields the outcome and state of `Ledger.MintImpl`; owner and approvals are unchanged |
| `Contract.ItWorks` | src/lib.rs:234-275 | the repository's test: counter 100 after deploy; 99 and 1 after `transfer(bob, 1)`; dave replaces charlie on id 2; revoking dave clears it; charlie approved on id 3; bob's count 2 after `transfer_from(bob, 3)` |
| `Ledger.TransferImpl` | src/lib.rs:189-203 | a refusal or an abort leaves the state unchanged; only owners and counts can change |
| `Ledger.MintImpl` | src/lib.rs:206-223 | a call that does not abort returns true and advances the counter by `value`; an abort changes nothing; owner and approvals never change |
| `Ledger.Deploy` | src/lib.rs:29-37 | the caller becomes the contract owner, the counter equals the initial value, and there are no approvals |
| `Ledger.Transfer` | src/lib.rs:74-81 | anything but success leaves the state unchanged; success means the caller owned the id and `to` now owns it |
| `Ledger.TransferFrom` | src/lib.rs:84-112 | anything but success leaves the state unchanged; success means the caller owned the id and `to` now owns it |
| `Ledger.Mint` | src/lib.rs:115-126 | anything but success leaves the state unchanged; success means the caller is the contract owner and the counter grew by `value` |
| `Ledger.Approval` | src/lib.rs:129-168 | false leaves the state unchanged; true means the caller owns the id; only approvals can change |
| `LedgerProps.TransferImplRejectsNonOwner` | src/lib.rs:189-192 | a sender that does not own the id (or an id without owner) gets false and nothing changes |
| `LedgerProps.TransferImplAborts` | src/lib.rs:197-201 | aborts exactly when the sender owns the id and its count is 0 or the receiver's count is the u64 maximum |
| `LedgerProps.TransferImplMovesToken` | src/lib.rs:194-202 | on success the id's owner becomes `to`; `from` loses 1 and `to` gains 1, or a self-transfer nets +1; other counts, approvals, owner and counter stay |
| `LedgerProps.TransferSucceedsIffOwner` | src/lib.rs:74-81 | `transfer` returns false iff the caller does not own the id, and true iff it does and neither count overflows |
| `LedgerProps.DelegateTransferFails` | src/lib.rs:94-111 | an approved delegate that is not the owner always gets false and changes nothing |
| `LedgerProps.TransferFromIsTransfer` | src/lib.rs:84-112 | `transfer_from` equals `transfer` on every state and input |
| `LedgerProps.Range` | src/lib.rs:212 | the id range holds exactly the ids from `lo` up to, excluding, `hi` |
| `LedgerProps.RangeSize` | src/lib.rs:212 | the id range `lo .. hi` has `hi - lo` ids |
| `LedgerProps.MintImplAborts` | src/lib.rs:208-221 | aborts exactly when the counter is at the u64 maximum, or the counter plus `value` or the contract owner's count plus `value` passes it |
| `LedgerProps.MintImplEffect` | src/lib.rs:206-223 | ids `t+1 .. t+value-1` go to the receiver and other ids keep their owner; the contract owner's count grows by `value` and no other count changes; counter becomes `t+value`; returns true |
| `LedgerProps.MintImplShortfall` | src/lib.rs:208-214 | from a state with ids below the counter, a mint of `value >= 1` adds exactly `value - 1` ids and leaves id `t+value` unowned |
| `LedgerProps.MintByNonOwnerRejected` | src/lib.rs:115-118 | a caller other than the contract owner gets false and nothing changes |
| `LedgerProps.DeployEffect` | src/lib.rs:29-37 | after deploy: owner is the caller, counter is `init_value`, the caller owns exactly ids `1 .. init_value-1`, its count is `init_value`, all other counts are 0, no approvals |
| `LedgerProps.DeployBalanceExceedsOwnedIds` | src/lib.rs:208-218 | after deploy with `init_value >= 1` the deployer owns `init_value - 1` ids but its count is `init_value` |
| `LedgerProps.MintReceiverTransferUnderflows` | src/lib.rs:197-218 | a mint receiver other than the contract owner owns id 1 with count 0, and its transfer aborts on the underflow |
| `LedgerProps.ApprovalRejectsNonOwner` | src/lib.rs:131-139 | an id without owner, or a caller that is not its owner: false, nothing changes |
| `LedgerProps.ApprovalGrant` | src/lib.rs:141-167 | a grant by the owner returns true, stores `to` for the id whether or not an entry existed, and no other account is approved for it |
| `LedgerProps.ApprovalRevoke` | src/lib.rs:141-167 | a revoke by the owner: false and unchanged when no entry exists; removes an entry naming `to`; true and unchanged when the entry names someone else |
| `LedgerProps.DeployValid` | src/lib.rs:29-37 | deploy establishes the invariant: owned ids lie in `1 .. total_minted-1`, and approvals exist only for owned ids |
| `LedgerProps.ApplyKeepsValid` | src/lib.rs:74-168 | every mutating call keeps the invariant, keeps the contract owner, never decreases the counter, and never removes an owned id |
| `LedgerProps.RunKeepsValid` | src/lib.rs:74-168 | the same holds for every sequence of calls |
| `LedgerProps.OnlyDeployerMints` | src/lib.rs:115-118 | after deploy and any calls, the invariant holds and a mint by anyone but the deployer returns false and changes nothing |

## Left out

- Event emission (`env.emit` of `EventMint`, `EventTransfer`, `EventApproval`) is not modelled. It is a notification to the host and changes no storage.
- The host environment is not modelled: `env.caller()` becomes a parameter, and the `contract!` macro, the `storage` wrappers and the `parity_codec` encoding become plain fields and maps.
- Rollback of a panicking call is not simulated. `Contract.NFToken.TransferImpl` and `Contract.NFToken.MintImpl` check the u64 arithmetic before their first write and return `Abort` with the state untouched. The source writes `id_to_owner` (or runs the mint loop) first and panics later. After the host's rollback both leave the same state.
- The test's account construction (`deploy_mock`, `AccountId::try_from` of 32-byte arrays) is not modelled. `ItWorks` takes four distinct accounts and the deploying account as caller.
- Builds that wrap on `u64` overflow (release builds without `overflow-checks`) are not modelled. In such a build the underflow at src/lib.rs:200 would set the count to the u64 maximum instead of aborting, for example in `LedgerProps.MintReceiverTransferUnderflows`.
- Ledger.MintImpl: running out of gas is not modelled. The loop at src/lib.rs:212-214 writes storage once per id, so its cost is linear in `value` and the host traps a large mint and rolls it back. The model returns true whenever the u64 checks pass, and `LedgerProps.MintImplAborts` characterises aborts assuming unlimited gas.
- Contract.NFToken.MintImpl: the same. Running out of gas is not modelled, and the method's result assumes unlimited gas.
- LedgerProps.MintImplAborts: its "aborts exactly when" covers u64 overflow only and holds assuming unlimited gas; a mint that runs out of gas is not modelled.
