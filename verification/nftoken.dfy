/**
  The NFToken contract as the object the host keeps: its five storage
  fields, updated in place by the entry points. Every query is proved to
  agree with the matching function of module Ledger, and every mutator to
  produce the outcome and the new state that the matching Ledger function
  gives for the old state; what those functions promise is proved in
  module LedgerProps. The caller identity the host supplies is an explicit
  parameter, and event emission is not modelled.
 */
module Contract {
  import opened Ledger

  class NFToken {
    var owner: AccountId
    var totalMinted: uint64
    var idToOwner: map<uint64, AccountId>
    var ownerToTokenCount: map<AccountId, uint64>
    var approvals: map<uint64, AccountId>

    /** The storage as a Ledger value. */
    ghost function View(): State
      reads this
    {
      State(owner, totalMinted, idToOwner, ownerToTokenCount, approvals)
    }

    /** `deploy`, run by `caller` on fresh storage. */
    constructor Deploy(caller: AccountId, initValue: uint64)
      ensures View() == Ledger.Deploy(caller, initValue)
    {
      totalMinted := 0;
      owner := caller;
      idToOwner, ownerToTokenCount, approvals := map[], map[], map[];
      new;
      if initValue > 0 {
        var _ := MintImpl(caller, initValue);
      }
    }

    // -------------------------------------------------------------------------
    // Queries

    function IsApproved(tokenId: uint64, approved: AccountId): (r: bool)
      reads this
      ensures r == Ledger.IsApproved(View(), tokenId, approved)
    {
      if tokenId !in approvals then false
      else approvals[tokenId] == approved
    }

    function TotalMinted(): (r: uint64)
      reads this
      ensures r == Ledger.TotalMinted(View())
    {
      totalMinted
    }

    function BalanceOf(account: AccountId): (r: uint64)
      reads this
      ensures r == Ledger.BalanceOf(View(), account)
    {
      if account in ownerToTokenCount then ownerToTokenCount[account] else 0
    }

    function IsTokenOwner(of: AccountId, tokenId: uint64): (r: bool)
      reads this
      ensures r == Ledger.IsTokenOwner(View(), of, tokenId)
    {
      if tokenId !in idToOwner then false
      else idToOwner[tokenId] == of
    }

    // -------------------------------------------------------------------------
    // Entry points

    method Transfer(caller: AccountId, to: AccountId, tokenId: uint64) returns (r: Outcome)
      modifies this
      ensures (r, View()) == Ledger.Transfer(old(View()), caller, to, tokenId)
    {
      r := TransferImpl(caller, to, tokenId);
    }

    method TransferFrom(caller: AccountId, to: AccountId, tokenId: uint64) returns (r: Outcome)
      modifies this
      ensures (r, View()) == Ledger.TransferFrom(old(View()), caller, to, tokenId)
    {
      if IsTokenOwner(caller, tokenId) {
        r := TransferImpl(caller, to, tokenId);
        return;
      }
      if tokenId !in approvals {
        return Return(false);
      }
      if approvals[tokenId] == caller {
        r := TransferImpl(caller, to, tokenId);
      } else {
        r := Return(false);
      }
    }

    method Mint(caller: AccountId, to: AccountId, value: uint64) returns (r: Outcome)
      modifies this
      ensures (r, View()) == Ledger.Mint(old(View()), caller, to, value)
    {
      if caller != owner {
        return Return(false);
      }
      r := MintImpl(to, value);
    }

    method Approval(caller: AccountId, to: AccountId, tokenId: uint64, approved: bool) returns (ok: bool)
      modifies this
      ensures (ok, View()) == Ledger.Approval(old(View()), caller, to, tokenId, approved)
      ensures owner == old(owner) && totalMinted == old(totalMinted)
      ensures idToOwner == old(idToOwner) && ownerToTokenCount == old(ownerToTokenCount)
    {
      if tokenId !in idToOwner {
        return false;
      }
      var tokenOwner := idToOwner[tokenId];
      if tokenOwner != caller {
        return false;
      }
      if tokenId !in approvals {
        if approved {
          approvals := approvals[tokenId := to];
        } else {
          return false;
        }
      } else {
        var existing := approvals[tokenId];
        if existing == to && !approved {
          approvals := approvals - {tokenId};
        }
        if approved {
          approvals := approvals[tokenId := to];
        }
      }
      ok := true;
    }

    // -------------------------------------------------------------------------
    // Private helpers

    /** Both counts are read before either is written. The u64 checks come
        before the writes: a panic rolls the whole call back anyway. */
    method TransferImpl(from: AccountId, to: AccountId, tokenId: uint64) returns (r: Outcome)
      modifies this
      ensures (r, View()) == Ledger.TransferImpl(old(View()), from, to, tokenId)
      ensures owner == old(owner) && totalMinted == old(totalMinted) && approvals == old(approvals)
    {
      if !IsTokenOwner(from, tokenId) {
        return Return(false);
      }
      var fromOwnerCount := BalanceOf(from);
      var toOwnerCount := BalanceOf(to);
      if fromOwnerCount == 0 || toOwnerCount == MAX_U64 {
        return Abort;
      }
      idToOwner := idToOwner[tokenId := to];
      ownerToTokenCount := ownerToTokenCount[from := fromOwnerCount - 1];
      ownerToTokenCount := ownerToTokenCount[to := toOwnerCount + 1];
      r := Return(true);
    }

    /** Assigns the ids of the half-open range `totalMinted + 1 ..
        totalMinted + value` one by one. The check of the owner's count
        happens before the loop rather than after it: a panic rolls the
        whole call back anyway. */
    method MintImpl(receiver: AccountId, value: uint64) returns (r: Outcome)
      modifies this
      ensures (r, View()) == Ledger.MintImpl(old(View()), receiver, value)
      ensures owner == old(owner) && approvals == old(approvals)
    {
      if totalMinted == MAX_U64 || value > MAX_U64 - totalMinted {
        return Abort;
      }
      var startId: uint64 := totalMinted + 1;
      var stopId: uint64 := totalMinted + value;
      var fromOwnerCount := BalanceOf(owner);
      if value > MAX_U64 - fromOwnerCount {
        return Abort;
      }
      var tokenId := startId;
      while tokenId < stopId
        invariant startId <= tokenId && (tokenId <= stopId || tokenId == startId)
        invariant idToOwner == AssignRange(old(idToOwner), startId, tokenId, receiver)
        invariant owner == old(owner) && totalMinted == old(totalMinted)
        invariant ownerToTokenCount == old(ownerToTokenCount) && approvals == old(approvals)
        decreases stopId - tokenId
      {
        idToOwner := idToOwner[tokenId := receiver];
        tokenId := tokenId + 1;
      }
      assert idToOwner == AssignRange(old(idToOwner), startId, stopId, receiver);
      ownerToTokenCount := ownerToTokenCount[owner := fromOwnerCount + value];
      totalMinted := totalMinted + value;
      r := Return(true);
    }
  }

  /** The repository's own test: deploy with 100 tokens, then every call is
      made by the deployer `alice`. */
  method ItWorks(alice: AccountId, bob: AccountId, charlie: AccountId, dave: AccountId)
    returns (minted: uint64, aliceBalance: uint64, bobBalance: uint64,
             charlieApproved: bool, daveApproved: bool, charlieStillApproved: bool,
             daveApprovedAfterRevoke: bool, charlieApprovedOn3: bool, bobBalanceAfterTransferFrom: uint64)
    requires alice != bob && alice != charlie && alice != dave
    requires bob != charlie && bob != dave && charlie != dave
    ensures minted == 100
    ensures aliceBalance == 99 && bobBalance == 1
    ensures charlieApproved && daveApproved && !charlieStillApproved
    ensures !daveApprovedAfterRevoke && charlieApprovedOn3
    ensures bobBalanceAfterTransferFrom == 2
  {
    var token := new NFToken.Deploy(alice, 100);
    minted := token.TotalMinted();

    var _ := token.Transfer(alice, bob, 1);
    aliceBalance := token.BalanceOf(alice);
    bobBalance := token.BalanceOf(bob);

    var _ := token.Approval(alice, charlie, 2, true);
    charlieApproved := token.IsApproved(2, charlie);

    var _ := token.Approval(alice, dave, 2, true);
    daveApproved := token.IsApproved(2, dave);
    charlieStillApproved := token.IsApproved(2, charlie);

    var _ := token.Approval(alice, dave, 2, false);
    daveApprovedAfterRevoke := token.IsApproved(2, dave);

    var _ := token.Approval(alice, charlie, 3, true);
    charlieApprovedOn3 := token.IsApproved(3, charlie);

    var _ := token.TransferFrom(alice, bob, 3);
    bobBalanceAfterTransferFrom := token.BalanceOf(bob);
  }
}
