/**
 * The editions ledger as the contract runs it: an object whose fields are
 * the storage and whose entrypoints update them in place, step by step.
 * Each entrypoint is proved to leave exactly the storage `EditionsSpec`
 * computes, or, when it aborts, the storage it started from.
 */
module EditionsContract {
  import opened Fa2Types
  import OperatorSet
  import opened EditionsSpec
  import EditionsProofs

  class FA2Core {
    var lock: bool
    var ledger: Ledger
    var admin: Address
    var tokenMetadata: map<nat, TokenMetadata>
    var operators: set<OperatorKey>
    var allTokens: nat
    var nextTokenId: nat
    var totalSupply: map<nat, nat>
    var children: set<Address>
    var parents: set<Address>
    var collaborators: set<Address>

    /** `self.data`. */
    function Data(): Storage
      reads this
    {
      Storage(lock, ledger, admin, tokenMetadata, operators, allTokens, nextTokenId, totalSupply,
              children, parents, collaborators)
    }

    constructor ()
      ensures Data() == Init()
      ensures Inv(Data())
    {
      lock := false;
      ledger := map[];
      admin := ADMIN_ADDRESS;
      tokenMetadata := map[];
      operators := {};
      allTokens := 0;
      nextTokenId := 0;
      totalSupply := map[];
      children := {};
      parents := {};
      collaborators := {};
      EditionsProofs.InitInv();
    }

    /** What the host does when a call aborts: every field goes back to its value before the call. */
    method RollBack(saved: Storage)
      modifies this
      ensures Data() == saved
    {
      lock, ledger, admin, tokenMetadata, operators := saved.lock, saved.ledger, saved.admin, saved.tokenMetadata, saved.operators;
      allTokens, nextTokenId, totalSupply := saved.allTokens, saved.nextTokenId, saved.totalSupply;
      children, parents, collaborators := saved.children, saved.parents, saved.collaborators;
    }

    /** `mint`, under the reentrancy guard. */
    method Mint(sender: Address, to: Address, amount: nat, metadata: TokenInfo) returns (r: Result<(), Error>)
      modifies this
      ensures Recorded(EditionsSpec.Mint(old(Data()), sender, to, amount, metadata), r, old(Data()), Data())
      ensures r.Ok? && Inv(old(Data())) ==> Inv(Data())
    {
      if lock {
        return Err(REENTRANCY_DETECTED);
      }
      ghost var saved := Data();
      lock := true;
      r := MintBody(sender, to, amount, metadata);
      lock := false;
      if r.Ok? && Inv(saved) {
        EditionsProofs.MintKeepsInv(saved, sender, to, amount, metadata);
      }
    }

    /** The body of `mint`, run while the lock is held. */
    method MintBody(sender: Address, to: Address, amount: nat, metadata: TokenInfo) returns (r: Result<(), Error>)
      modifies this
      ensures Recorded(MintAction(old(Data()), sender, to, amount, metadata), r, old(Data()), Data())
    {
      if sender != admin && sender !in collaborators {
        return Err(NOT_AUTHORIZED_TO_MINT);
      }
      var tokenId := nextTokenId;
      tokenMetadata := tokenMetadata[tokenId := TokenMetadata(tokenId, metadata)];
      var key := LedgerKey(to, tokenId);
      if key in ledger {
        ledger := ledger[key := ledger[key] + amount];
      } else {
        ledger := ledger[key := amount];
      }
      if tokenId in totalSupply {
        totalSupply := totalSupply[tokenId := totalSupply[tokenId] + amount];
      } else {
        totalSupply := totalSupply[tokenId := amount];
      }
      allTokens := allTokens + 1;
      nextTokenId := nextTokenId + 1;
      r := Ok(());
    }

    /** `transfer`: every tx of every group in order, each reading the ledger the previous ones left. */
    method Transfer(sender: Address, batch: seq<TransferGroup>) returns (r: Result<(), Error>)
      modifies this
      ensures Recorded(EditionsSpec.Transfer(old(Data()), sender, batch), r, old(Data()), Data())
      ensures r.Ok? && Inv(old(Data())) ==> Inv(Data())
    {
      if lock {
        return Err(REENTRANCY_DETECTED);
      }
      ghost var saved := Data();
      lock := true;
      r := TransferBody(sender, batch);
      lock := false;
      if r.Ok? && Inv(saved) {
        EditionsProofs.TransferKeepsInv(saved, sender, batch);
      }
    }

    /** The body of `transfer`, run while the lock is held; a failing tx rolls the whole batch back. */
    method TransferBody(sender: Address, batch: seq<TransferGroup>) returns (r: Result<(), Error>)
      modifies this
      ensures Recorded(ApplyBatch(old(Data()), sender, batch), r, old(Data()), Data())
    {
      var saved := Data();
      var i := 0;
      while i < |batch|
        invariant 0 <= i <= |batch|
        invariant ApplyBatch(saved, sender, batch) == ApplyBatch(Data(), sender, batch[i..])
      {
        assert batch[i..][1..] == batch[i + 1..];
        var res := TransferGroupTxs(sender, batch[i].from, batch[i].txs);
        if res.Err? {
          RollBack(saved);
          return res;
        }
        i := i + 1;
      }
      r := Ok(());
    }

    /** The txs of one transfer group, in order; a failing tx rolls the group back. */
    method TransferGroupTxs(sender: Address, from: Address, txs: seq<Tx>) returns (r: Result<(), Error>)
      modifies this
      ensures Recorded(ApplyTxs(old(Data()), sender, from, txs), r, old(Data()), Data())
    {
      var saved := Data();
      var j := 0;
      while j < |txs|
        invariant 0 <= j <= |txs|
        invariant ApplyTxs(saved, sender, from, txs) == ApplyTxs(Data(), sender, from, txs[j..])
      {
        assert txs[j..][1..] == txs[j + 1..];
        var res := TransferOne(sender, from, txs[j]);
        if res.Err? {
          RollBack(saved);
          return res;
        }
        j := j + 1;
      }
      r := Ok(());
    }

    /** One tx: the sender must be `from` or its operator for the token, and `from` must hold enough. */
    method TransferOne(sender: Address, from: Address, tx: Tx) returns (r: Result<(), Error>)
      modifies this
      ensures Recorded(TransferTx(old(Data()), sender, from, tx), r, old(Data()), Data())
    {
      if from != sender && !OperatorSet.IsMember(operators, OperatorKey(from, sender, tx.tokenId)) {
        return Err(NOT_OPERATOR);
      }
      if tx.tokenId !in tokenMetadata {
        return Err(TOKEN_UNDEFINED);
      }
      if tx.amount > 0 {
        var src := LedgerKey(from, tx.tokenId);
        var dst := LedgerKey(tx.to, tx.tokenId);
        if src !in ledger || ledger[src] < tx.amount {
          return Err(INSUFFICIENT_BALANCE);
        }
        ledger := ledger[src := ledger[src] - tx.amount];
        if dst in ledger {
          ledger := ledger[dst := ledger[dst] + tx.amount];
        } else {
          ledger := ledger[dst := tx.amount];
        }
      }
      r := Ok(());
    }

    /** `burn`, under the reentrancy guard: the units go to the burn address. */
    method Burn(sender: Address, tokenId: nat, amount: nat) returns (r: Result<(), Error>)
      modifies this
      ensures Recorded(EditionsSpec.Burn(old(Data()), sender, tokenId, amount), r, old(Data()), Data())
      ensures r.Ok? && Inv(old(Data())) ==> Inv(Data())
    {
      if lock {
        return Err(REENTRANCY_DETECTED);
      }
      ghost var saved := Data();
      lock := true;
      r := BurnBody(sender, tokenId, amount);
      lock := false;
      if r.Ok? && Inv(saved) {
        EditionsProofs.BurnKeepsInv(saved, sender, tokenId, amount);
      }
    }

    /**
     * The body of `burn`, run while the lock is held. The ledger is written
     * before the supply checks, so a failing supply check rolls it back.
     */
    method BurnBody(sender: Address, tokenId: nat, amount: nat) returns (r: Result<(), Error>)
      modifies this
      ensures Recorded(BurnAction(old(Data()), sender, tokenId, amount), r, old(Data()), Data())
    {
      var saved := Data();
      if tokenId >= nextTokenId {
        return Err(TOKEN_UNDEFINED);
      }
      var user := LedgerKey(sender, tokenId);
      if user !in ledger {
        return Err(NOT_OWNER);
      }
      if ledger[user] < amount {
        return Err(INSUFFICIENT_BALANCE);
      }
      var burnUser := LedgerKey(BURN_ADDRESS, tokenId);
      ledger := ledger[user := ledger[user] - amount];
      if burnUser in ledger {
        ledger := ledger[burnUser := ledger[burnUser] + amount];
      } else {
        ledger := ledger[burnUser := amount];
      }
      if tokenId !in totalSupply {
        RollBack(saved);
        return Err(MissingKey);
      }
      if totalSupply[tokenId] < amount {
        RollBack(saved);
        return Err(INSUFFICIENT_BALANCE);
      }
      totalSupply := totalSupply[tokenId := totalSupply[tokenId] - amount];
      if totalSupply[tokenId] == 0 {
        if allTokens == 0 {
          RollBack(saved);
          return Err(AsNatFailure);
        }
        allTokens := allTokens - 1;
      }
      r := Ok(());
    }

    /** `update_operators`: each variant in order, only for keys whose owner is the sender. */
    method UpdateOperators(sender: Address, updates: seq<OperatorUpdate>) returns (r: Result<(), Error>)
      modifies this
      ensures Recorded(EditionsSpec.UpdateOperators(old(Data()), sender, updates), r, old(Data()), Data())
      ensures r.Ok? && Inv(old(Data())) ==> Inv(Data())
    {
      var saved := Data();
      var i := 0;
      while i < |updates|
        invariant 0 <= i <= |updates|
        invariant Data() == saved.(operators := operators)
        invariant ApplyUpdates(saved.operators, sender, updates) == ApplyUpdates(operators, sender, updates[i..])
      {
        var update := updates[i];
        assert updates[i..][1..] == updates[i + 1..];
        if update.key.owner != sender {
          RollBack(saved);
          return Err(NOT_OWNER);
        }
        match update {
          case AddOperator(key) =>
            operators := OperatorSet.Add(operators, key);
          case RemoveOperator(key) =>
            operators := OperatorSet.Remove(operators, key);
        }
        i := i + 1;
      }
      r := Ok(());
    }

    method AddCollaborator(sender: Address, address: Address) returns (r: Result<(), Error>)
      modifies this
      ensures Recorded(UpdateAddressList(old(Data()), sender, Collaborators, true, address), r, old(Data()), Data())
      ensures r.Ok? && Inv(old(Data())) ==> Inv(Data())
    {
      if sender != admin {
        return Err(OnlyAdmin(true, Collaborators));
      }
      collaborators := collaborators + {address};
      r := Ok(());
    }

    method RemoveCollaborator(sender: Address, address: Address) returns (r: Result<(), Error>)
      modifies this
      ensures Recorded(UpdateAddressList(old(Data()), sender, Collaborators, false, address), r, old(Data()), Data())
      ensures r.Ok? && Inv(old(Data())) ==> Inv(Data())
    {
      if sender != admin {
        return Err(OnlyAdmin(false, Collaborators));
      }
      collaborators := collaborators - {address};
      r := Ok(());
    }

    method AddChild(sender: Address, address: Address) returns (r: Result<(), Error>)
      modifies this
      ensures Recorded(UpdateAddressList(old(Data()), sender, Children, true, address), r, old(Data()), Data())
      ensures r.Ok? && Inv(old(Data())) ==> Inv(Data())
    {
      if sender != admin {
        return Err(OnlyAdmin(true, Children));
      }
      children := children + {address};
      r := Ok(());
    }

    method RemoveChild(sender: Address, address: Address) returns (r: Result<(), Error>)
      modifies this
      ensures Recorded(UpdateAddressList(old(Data()), sender, Children, false, address), r, old(Data()), Data())
      ensures r.Ok? && Inv(old(Data())) ==> Inv(Data())
    {
      if sender != admin {
        return Err(OnlyAdmin(false, Children));
      }
      children := children - {address};
      r := Ok(());
    }

    method AddParent(sender: Address, address: Address) returns (r: Result<(), Error>)
      modifies this
      ensures Recorded(UpdateAddressList(old(Data()), sender, Parents, true, address), r, old(Data()), Data())
      ensures r.Ok? && Inv(old(Data())) ==> Inv(Data())
    {
      if sender != admin {
        return Err(OnlyAdmin(true, Parents));
      }
      parents := parents + {address};
      r := Ok(());
    }

    method RemoveParent(sender: Address, address: Address) returns (r: Result<(), Error>)
      modifies this
      ensures Recorded(UpdateAddressList(old(Data()), sender, Parents, false, address), r, old(Data()), Data())
      ensures r.Ok? && Inv(old(Data())) ==> Inv(Data())
    {
      if sender != admin {
        return Err(OnlyAdmin(false, Parents));
      }
      parents := parents - {address};
      r := Ok(());
    }
  }
}
