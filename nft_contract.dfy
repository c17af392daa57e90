/**
 * The 1/1 NFT ledger as the contract runs it: an object whose fields are
 * the storage and whose entrypoints update them in place. Each entrypoint
 * is proved to leave exactly the storage `NftSpec` computes, or, when it
 * aborts, the storage it started from.
 */
module NftContract {
  import opened Fa2Types
  import OperatorSet
  import opened NftSpec
  import NftProofs

  class Fa2NftMint {
    var ledger: map<nat, Address>
    var admin: Address
    var nextTokenId: nat
    var operators: set<OperatorKey>
    var tokenMetadata: map<nat, TokenMetadata>
    var children: set<Address>
    var parents: set<Address>

    /** `self.data`. */
    function Data(): Storage
      reads this
    {
      Storage(ledger, admin, nextTokenId, operators, tokenMetadata, children, parents)
    }

    /** Origination with the administrator given as a parameter. */
    constructor (administrator: Address)
      ensures Data() == Init(administrator)
      ensures Inv(Data())
    {
      ledger := map[];
      admin := administrator;
      nextTokenId := 0;
      operators := {};
      tokenMetadata := map[];
      children := {};
      parents := {};
      NftProofs.InitInv(administrator);
    }

    /** What the host does when a call aborts: every field goes back to its value before the call. */
    method RollBack(saved: Storage)
      modifies this
      ensures Data() == saved
    {
      ledger, admin, nextTokenId, operators := saved.ledger, saved.admin, saved.nextTokenId, saved.operators;
      tokenMetadata, children, parents := saved.tokenMetadata, saved.children, saved.parents;
    }

    method Mint(sender: Address, to: Address, metadata: TokenInfo) returns (r: Result<(), Error>)
      modifies this
      ensures Recorded(NftSpec.Mint(old(Data()), sender, to, metadata), r, old(Data()), Data())
      ensures r.Ok? && Inv(old(Data())) ==> Inv(Data())
    {
      if sender != ADMIN_ADDRESS {
        return Err(ONLY_COLLECTOR_OWNER);
      }
      var tokenId := nextTokenId;
      tokenMetadata := tokenMetadata[tokenId := TokenMetadata(tokenId, metadata)];
      ledger := ledger[tokenId := to];
      nextTokenId := nextTokenId + 1;
      r := Ok(());
    }

    /** `transfer`: every tx of every group in order; a failing tx rolls the whole batch back. */
    method Transfer(sender: Address, batch: seq<TransferGroup>) returns (r: Result<(), Error>)
      modifies this
      ensures Recorded(NftSpec.Transfer(old(Data()), sender, batch), r, old(Data()), Data())
      ensures r.Ok? && Inv(old(Data())) ==> Inv(Data())
    {
      var saved := Data();
      var i := 0;
      while i < |batch|
        invariant 0 <= i <= |batch|
        invariant NftSpec.Transfer(saved, sender, batch) == NftSpec.Transfer(Data(), sender, batch[i..])
      {
        assert batch[i..][1..] == batch[i + 1..];
        var res := TransferGroupTxs(sender, batch[i].from, batch[i].txs);
        if res.Err? {
          RollBack(saved);
          return res;
        }
        i := i + 1;
      }
      r := Ok(());
      if Inv(saved) {
        NftProofs.TransferEffect(saved, sender, batch);
      }
    }

    /** The txs of one transfer group, in order; a failing tx rolls the group back. */
    method TransferGroupTxs(sender: Address, from: Address, txs: seq<Tx>) returns (r: Result<(), Error>)
      modifies this
      ensures Recorded(ApplyTxs(old(Data()), sender, from, txs), r, old(Data()), Data())
    {
      var saved := Data();
      var j := 0;
      while j < |txs|
        invariant 0 <= j <= |txs|
        invariant ApplyTxs(saved, sender, from, txs) == ApplyTxs(Data(), sender, from, txs[j..])
      {
        assert txs[j..][1..] == txs[j + 1..];
        var res := TransferOne(sender, from, txs[j]);
        if res.Err? {
          RollBack(saved);
          return res;
        }
        j := j + 1;
      }
      r := Ok(());
    }

    /** One tx: a defined id, an authorised sender, and for a positive amount exactly one unit owned by `from`. */
    method TransferOne(sender: Address, from: Address, tx: Tx) returns (r: Result<(), Error>)
      modifies this
      ensures Recorded(TransferTx(old(Data()), sender, from, tx), r, old(Data()), Data())
    {
      if tx.tokenId >= nextTokenId {
        return Err(UNDEFINED_FOR_TRANSFER);
      }
      if from != sender && !OperatorSet.IsMember(operators, OperatorKey(from, sender, tx.tokenId)) {
        return Err(NOT_OWNER_OR_OPERATOR);
      }
      if tx.amount > 0 {
        if tx.amount != 1 {
          return Err(TRANSFER_MORE_THAN_OWNED);
        }
        if tx.tokenId !in ledger {
          return Err(MissingKey);
        }
        if ledger[tx.tokenId] != from {
          return Err(TRANSFER_MORE_THAN_OWNED);
        }
        ledger := ledger[tx.tokenId := tx.to];
      }
      r := Ok(());
    }

    /** `update_operators`: each variant in order, for tokens the sender owns; the key's owner is not checked. */
    method UpdateOperators(sender: Address, updates: seq<OperatorUpdate>) returns (r: Result<(), Error>)
      modifies this
      ensures Recorded(NftSpec.UpdateOperators(old(Data()), sender, updates), r, old(Data()), Data())
      ensures r.Ok? && Inv(old(Data())) ==> Inv(Data())
    {
      var saved := Data();
      var i := 0;
      while i < |updates|
        invariant 0 <= i <= |updates|
        invariant Data() == saved.(operators := operators)
        invariant NftSpec.UpdateOperators(saved, sender, updates) == NftSpec.UpdateOperators(Data(), sender, updates[i..])
      {
        var update := updates[i];
        assert updates[i..][1..] == updates[i + 1..];
        // only_owner
        if update.key.tokenId !in ledger {
          RollBack(saved);
          return Err(MissingKey);
        }
        if sender != ledger[update.key.tokenId] {
          RollBack(saved);
          return Err(NOT_OWNER_OF_TOKEN);
        }
        match update {
          case AddOperator(key) =>
            operators := OperatorSet.Add(operators, key);
          case RemoveOperator(key) =>
            operators := OperatorSet.Remove(operators, key);
        }
        i := i + 1;
      }
      r := Ok(());
    }

    /** `burn`: the owner deletes the token's ledger entry and metadata. */
    method Burn(sender: Address, tokenId: nat) returns (r: Result<(), Error>)
      modifies this
      ensures Recorded(NftSpec.Burn(old(Data()), sender, tokenId), r, old(Data()), Data())
      ensures r.Ok? && Inv(old(Data())) ==> Inv(Data())
    {
      if tokenId >= nextTokenId {
        return Err(BURN_UNDEFINED);
      }
      if tokenId !in ledger {
        return Err(MissingKey);
      }
      if ledger[tokenId] != sender {
        return Err(NOT_OWNER_CANNOT_BURN);
      }
      ledger := ledger - {tokenId};
      tokenMetadata := tokenMetadata - {tokenId};
      r := Ok(());
    }

    method AddChild(sender: Address, address: Address) returns (r: Result<(), Error>)
      modifies this
      ensures Recorded(UpdateAddressList(old(Data()), sender, Children, true, address), r, old(Data()), Data())
    {
      if sender != admin {
        return Err(OnlyAdmin(true, Children));
      }
      children := children + {address};
      r := Ok(());
    }

    method RemoveChild(sender: Address, address: Address) returns (r: Result<(), Error>)
      modifies this
      ensures Recorded(UpdateAddressList(old(Data()), sender, Children, false, address), r, old(Data()), Data())
    {
      if sender != admin {
        return Err(OnlyAdmin(false, Children));
      }
      children := children - {address};
      r := Ok(());
    }

    method AddParent(sender: Address, address: Address) returns (r: Result<(), Error>)
      modifies this
      ensures Recorded(UpdateAddressList(old(Data()), sender, Parents, true, address), r, old(Data()), Data())
    {
      if sender != admin {
        return Err(OnlyAdmin(true, Parents));
      }
      parents := parents + {address};
      r := Ok(());
    }

    method RemoveParent(sender: Address, address: Address) returns (r: Result<(), Error>)
      modifies this
      ensures Recorded(UpdateAddressList(old(Data()), sender, Parents, false, address), r, old(Data()), Data())
    {
      if sender != admin {
        return Err(OnlyAdmin(false, Parents));
      }
      parents := parents - {address};
      r := Ok(());
    }
  }
}
