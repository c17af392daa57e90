/**
 * Properties of the 1/1 NFT ledger: what each entrypoint requires and does,
 * that the storage invariant is kept, that a burned id never comes back,
 * and the operator-planting defect of `update_operators` next to the
 * owner-checked variant that rules it out.
 */
module NftProofs {
  import opened Fa2Types
  import OperatorSet
  import opened NftSpec

  lemma InitInv(admin: Address)
    ensures Inv(Init(admin))
  {
  }

  // ---------------------------------------------------------------------------
  // mint

  /**
   * `mint` succeeds exactly when the sender is the module constant's
   * address. On success the new id is `nextTokenId`, which no token had, so
   * no existing token changes hands; `to` owns the new id and holds a
   * balance of 1 of it; the counter grows by one; nothing else changes.
   */
  lemma MintEffect(s: Storage, sender: Address, to: Address, metadata: TokenInfo)
    requires Inv(s)
    ensures var r := Mint(s, sender, to, metadata);
      && (r.Ok? <==> sender == ADMIN_ADDRESS)
      && (r.Ok? <==> sender == GetAdministrator(s))
      && (r.Err? ==> r.error == ONLY_COLLECTOR_OWNER)
      && (r.Ok? ==>
            var id := s.nextTokenId;
            && id !in s.ledger
            && r.value.ledger.Keys == s.ledger.Keys + {id}
            && r.value.ledger[id] == to
            && (forall t :: t in s.ledger ==> r.value.ledger[t] == s.ledger[t])
            && r.value.tokenMetadata[id] == TokenMetadata(id, metadata)
            && r.value.tokenMetadata.Keys == s.tokenMetadata.Keys + {id}
            && (forall t :: t in s.tokenMetadata && t != id ==> r.value.tokenMetadata[t] == s.tokenMetadata[t])
            && r.value.nextTokenId == id + 1
            && GetBalance(r.value, to, id) == Ok(1)
            && r.value.admin == s.admin && r.value.operators == s.operators
            && r.value.children == s.children && r.value.parents == s.parents
            && Inv(r.value))
  {
  }

  // ---------------------------------------------------------------------------
  // transfer

  /**
   * A tx fails on an id never minted, then on a sender that is neither
   * `from` nor `from`'s operator for that id; an amount of 0 then changes
   * nothing. An amount of 1 aborts on a burned id; a positive amount
   * otherwise succeeds exactly when it is 1 and `from` owns the token: the
   * token then passes to `to` and nothing else changes. It fails with
   * "Transfer more than Owned" exactly for an amount of 2 or more, or an
   * amount of 1 of a token `from` does not own.
   */
  lemma TransferTxOutcome(s: Storage, sender: Address, from: Address, tx: Tx)
    ensures var r := TransferTx(s, sender, from, tx);
      && (r == Err(UNDEFINED_FOR_TRANSFER) <==> tx.tokenId >= s.nextTokenId)
      && (r == Err(NOT_OWNER_OR_OPERATOR) <==>
            tx.tokenId < s.nextTokenId && from != sender && OperatorKey(from, sender, tx.tokenId) !in s.operators)
      && (r == Err(MissingKey) <==>
            tx.tokenId < s.nextTokenId && MayTransfer(s, sender, from, tx.tokenId) && tx.amount == 1 && tx.tokenId !in s.ledger)
      && (r == Err(TRANSFER_MORE_THAN_OWNED) <==>
            tx.tokenId < s.nextTokenId && MayTransfer(s, sender, from, tx.tokenId)
            && (tx.amount >= 2 || (tx.amount == 1 && tx.tokenId in s.ledger && s.ledger[tx.tokenId] != from)))
      && (r.Ok? <==>
            tx.tokenId < s.nextTokenId && MayTransfer(s, sender, from, tx.tokenId)
            && (tx.amount == 0 || (tx.amount == 1 && tx.tokenId in s.ledger && s.ledger[tx.tokenId] == from)))
      && (r.Ok? && tx.amount == 0 ==> r.value == s)
      && (r.Ok? && tx.amount > 0 ==>
            && r.value == s.(ledger := r.value.ledger)
            && r.value.ledger.Keys == s.ledger.Keys
            && r.value.ledger[tx.tokenId] == tx.to
            && forall t :: t in s.ledger && t != tx.tokenId ==> r.value.ledger[t] == s.ledger[t])
  {
  }

  /** The token ids a transfer group names. */
  function TxIds(txs: seq<Tx>): set<nat>
    decreases |txs|
  {
    if txs == [] then {} else {txs[0].tokenId} + TxIds(txs[1..])
  }

  /** The token ids a transfer batch names. */
  function BatchIds(batch: seq<TransferGroup>): set<nat>
    decreases |batch|
  {
    if batch == [] then {} else TxIds(batch[0].txs) + BatchIds(batch[1..])
  }

  /**
   * A successful group writes only the ledger, keeps its set of ids (no
   * token is created or destroyed), and leaves every token it does not name
   * with its owner.
   */
  lemma {:induction false} ApplyTxsEffect(s: Storage, sender: Address, from: Address, txs: seq<Tx>)
    requires ApplyTxs(s, sender, from, txs).Ok?
    ensures var s' := ApplyTxs(s, sender, from, txs).value;
      && s' == s.(ledger := s'.ledger)
      && s'.ledger.Keys == s.ledger.Keys
      && (forall t :: t in s.ledger && t !in TxIds(txs) ==> s'.ledger[t] == s.ledger[t])
    decreases |txs|
  {
    if txs != [] {
      TransferTxOutcome(s, sender, from, txs[0]);
      ApplyTxsEffect(TransferTx(s, sender, from, txs[0]).value, sender, from, txs[1..]);
    }
  }

  /**
   * A successful `transfer` writes only the ledger, keeps its set of ids,
   * leaves every token no tx names with its owner, and so keeps the invariant.
   */
  lemma {:induction false} TransferEffect(s: Storage, sender: Address, batch: seq<TransferGroup>)
    requires Transfer(s, sender, batch).Ok?
    ensures var s' := Transfer(s, sender, batch).value;
      && s' == s.(ledger := s'.ledger)
      && s'.ledger.Keys == s.ledger.Keys
      && (forall t :: t in s.ledger && t !in BatchIds(batch) ==> s'.ledger[t] == s.ledger[t])
      && (Inv(s) ==> Inv(s'))
    decreases |batch|
  {
    if batch != [] {
      ApplyTxsEffect(s, sender, batch[0].from, batch[0].txs);
      TransferEffect(ApplyTxs(s, sender, batch[0].from, batch[0].txs).value, sender, batch[1..]);
    }
  }

  /** A batch of one group of one tx does what that tx does. */
  lemma SingleTx(s: Storage, sender: Address, from: Address, tx: Tx)
    ensures Transfer(s, sender, [TransferGroup(from, [tx])]) == TransferTx(s, sender, from, tx)
  {
    var batch := [TransferGroup(from, [tx])];
    assert batch[1..] == [] && [tx][1..] == [];
    match TransferTx(s, sender, from, tx)
    case Err(e) =>
    case Ok(s') =>
      assert ApplyTxs(s, sender, from, [tx]) == Ok(s');
      assert Transfer(s', sender, batch[1..]) == Ok(s');
  }

  // ---------------------------------------------------------------------------
  // update_operators

  /** The sender owns the token a variant names. */
  predicate OwnsKeyToken(s: Storage, sender: Address, update: OperatorUpdate)
  {
    update.key.tokenId in s.ledger && s.ledger[update.key.tokenId] == sender
  }

  /**
   * `update_operators` succeeds exactly when the sender owns the token of
   * every variant, and then applies them in order to the operator set and
   * changes nothing else. Otherwise the first variant whose token the
   * sender does not own decides the error: the missing-key read for a
   * burned id, "You are not the Owner of this Token" for another owner's.
   */
  lemma {:induction false} UpdateOperatorsOutcome(s: Storage, sender: Address, updates: seq<OperatorUpdate>)
    ensures var r := UpdateOperators(s, sender, updates);
      && (r.Ok? <==> forall i :: 0 <= i < |updates| ==> OwnsKeyToken(s, sender, updates[i]))
      && (r.Ok? ==> r.value == s.(operators := OperatorSet.ApplyAll(s.operators, updates)))
      && (r.Err? ==> exists i :: (0 <= i < |updates|
            && (forall j :: 0 <= j < i ==> OwnsKeyToken(s, sender, updates[j]))
            && !OwnsKeyToken(s, sender, updates[i])
            && r == Err(if updates[i].key.tokenId !in s.ledger then MissingKey else NOT_OWNER_OF_TOKEN)))
    decreases |updates|
  {
    if updates != [] {
      var rest := updates[1..];
      assert forall i :: 0 <= i < |rest| ==> rest[i] == updates[i + 1];
      match UpdateOperator(s, sender, updates[0])
      case Err(e) =>
        assert !OwnsKeyToken(s, sender, updates[0]);
      case Ok(s') =>
        UpdateOperatorsOutcome(s', sender, rest);
        if UpdateOperators(s', sender, rest).Err? {
          var i :| 0 <= i < |rest|
            && (forall j :: 0 <= j < i ==> OwnsKeyToken(s', sender, rest[j]))
            && !OwnsKeyToken(s', sender, rest[i])
            && UpdateOperators(s', sender, rest) == Err(if rest[i].key.tokenId !in s'.ledger then MissingKey else NOT_OWNER_OF_TOKEN);
          assert forall j :: 0 <= j < i + 1 ==> OwnsKeyToken(s, sender, updates[j]);
        }
    }
  }

  /**
   * After a successful `update_operators` the `is_operator` view answers
   * yes for a key exactly when the last variant naming it added it, or no
   * variant named it and it was an operator before.
   */
  lemma UpdateOperatorsGrants(s: Storage, sender: Address, updates: seq<OperatorUpdate>)
    ensures var r := UpdateOperators(s, sender, updates);
      r.Ok? ==> forall key :: IsOperator(r.value, key) <==> OperatorSet.GrantedAfter(s.operators, updates, key)
  {
    UpdateOperatorsOutcome(s, sender, updates);
    forall key ensures key in OperatorSet.ApplyAll(s.operators, updates) <==> OperatorSet.GrantedAfter(s.operators, updates, key) {
      OperatorSet.ApplyAllGranted(s.operators, updates, key);
    }
  }

  /** `update_operators` keeps the invariant. */
  lemma UpdateOperatorsKeepsInv(s: Storage, sender: Address, updates: seq<OperatorUpdate>)
    requires Inv(s) && UpdateOperators(s, sender, updates).Ok?
    ensures Inv(UpdateOperators(s, sender, updates).value)
  {
    UpdateOperatorsOutcome(s, sender, updates);
  }

  /**
   * As written, the owner of a token may add an operator key naming ANY
   * address as owner: the key `(victim, sender, t)` is granted although
   * `victim` never called.
   */
  lemma GrantForAnotherOwner(s: Storage, sender: Address, victim: Address, t: nat)
    requires t in s.ledger && s.ledger[t] == sender && victim != sender
    ensures var r := UpdateOperators(s, sender, [AddOperator(OperatorKey(victim, sender, t))]);
      && r.Ok?
      && OperatorKey(victim, sender, t) in r.value.operators
      && OperatorKey(victim, sender, t).owner != sender
  {
    UpdateOperatorsOutcome(s, sender, [AddOperator(OperatorKey(victim, sender, t))]);
  }

  /**
   * The theft this allows. The admin mints token 0 to itself, plants the
   * key (buyer, admin, 0), and sells the token to `buyer`. The admin can
   * then move the token back from `buyer` as `buyer`'s "operator", though
   * `buyer` never granted anything.
   */
  lemma PlantedOperatorTheft(buyer: Address)
    requires buyer != ADMIN_ADDRESS
    ensures var seller := ADMIN_ADDRESS;
      var minted := Mint(Init(seller), seller, seller, map[]);
      && minted.Ok?
      && var planted := UpdateOperators(minted.value, seller, [AddOperator(OperatorKey(buyer, seller, 0))]);
      && planted.Ok?
      && var sold := Transfer(planted.value, seller, [TransferGroup(seller, [Tx(buyer, 0, 1)])]);
      && sold.Ok?
      && GetBalance(sold.value, buyer, 0) == Ok(1)
      && var taken := Transfer(sold.value, seller, [TransferGroup(buyer, [Tx(seller, 0, 1)])]);
      && taken.Ok?
      && GetBalance(taken.value, buyer, 0) == Ok(0)
      && GetBalance(taken.value, seller, 0) == Ok(1)
  {
    var seller := ADMIN_ADDRESS;
    var minted := Mint(Init(seller), seller, seller, map[]).value;
    var key := OperatorKey(buyer, seller, 0);
    GrantForAnotherOwner(minted, seller, buyer, 0);
    var planted := UpdateOperators(minted, seller, [AddOperator(key)]).value;
    SingleTx(planted, seller, seller, Tx(buyer, 0, 1));
    var sold := Transfer(planted, seller, [TransferGroup(seller, [Tx(buyer, 0, 1)])]).value;
    assert sold.operators == planted.operators && key in planted.operators;
    SingleTx(sold, seller, buyer, Tx(seller, 0, 1));
  }

  /**
   * With the owner of every key checked, `update_operators` succeeds
   * exactly when the sender owns the token of every variant and is the
   * owner the variant names; it never changes a key that names another
   * owner. Otherwise the first variant that fails either check decides the
   * error: the missing-key read for a burned id, "You are not the Owner of
   * this Token" for another owner's token or another owner's key.
   */
  lemma {:induction false} UpdateOperatorsOwnKeysOutcome(s: Storage, sender: Address, updates: seq<OperatorUpdate>)
    ensures var r := UpdateOperatorsOwnKeys(s, sender, updates);
      && (r.Ok? <==> forall i :: 0 <= i < |updates| ==> OwnsKeyToken(s, sender, updates[i]) && updates[i].key.owner == sender)
      && (r.Ok? ==> r.value == s.(operators := OperatorSet.ApplyAll(s.operators, updates)))
      && (r.Ok? ==> forall k: OperatorKey :: k.owner != sender ==> (k in r.value.operators <==> k in s.operators))
      && (r.Err? ==> exists i :: (0 <= i < |updates|
            && (forall j :: 0 <= j < i ==> OwnsKeyToken(s, sender, updates[j]) && updates[j].key.owner == sender)
            && !(OwnsKeyToken(s, sender, updates[i]) && updates[i].key.owner == sender)
            && r == Err(if updates[i].key.tokenId !in s.ledger then MissingKey else NOT_OWNER_OF_TOKEN)))
    decreases |updates|
  {
    if updates != [] {
      var rest := updates[1..];
      assert forall i :: 0 <= i < |rest| ==> rest[i] == updates[i + 1];
      match UpdateOperatorOwnKey(s, sender, updates[0])
      case Err(e) =>
        assert !(OwnsKeyToken(s, sender, updates[0]) && updates[0].key.owner == sender);
      case Ok(s') =>
        UpdateOperatorsOwnKeysOutcome(s', sender, rest);
        if UpdateOperatorsOwnKeys(s', sender, rest).Err? {
          var i :| 0 <= i < |rest|
            && (forall j :: 0 <= j < i ==> OwnsKeyToken(s', sender, rest[j]) && rest[j].key.owner == sender)
            && !(OwnsKeyToken(s', sender, rest[i]) && rest[i].key.owner == sender)
            && UpdateOperatorsOwnKeys(s', sender, rest) == Err(if rest[i].key.tokenId !in s'.ledger then MissingKey else NOT_OWNER_OF_TOKEN);
          assert forall j :: 0 <= j < i + 1 ==> OwnsKeyToken(s, sender, updates[j]) && updates[j].key.owner == sender;
        }
    }
  }

  /** With the owner checked, the planting step of the theft is refused. */
  lemma PlantingRefused(buyer: Address)
    requires buyer != ADMIN_ADDRESS
    ensures var seller := ADMIN_ADDRESS;
      var minted := Mint(Init(seller), seller, seller, map[]);
      && minted.Ok?
      && UpdateOperatorsOwnKeys(minted.value, seller, [AddOperator(OperatorKey(buyer, seller, 0))]) == Err(NOT_OWNER_OF_TOKEN)
  {
  }

  // ---------------------------------------------------------------------------
  // burn

  /**
   * `burn` fails on an id never minted, aborts on an id already burned,
   * and otherwise succeeds exactly when the sender owns the token. It then
   * deletes the token's ledger entry and metadata and changes nothing else;
   * the counter stays, so the id is never handed out again.
   */
  lemma BurnEffect(s: Storage, sender: Address, tokenId: nat)
    requires Inv(s)
    ensures var r := Burn(s, sender, tokenId);
      && (r == Err(BURN_UNDEFINED) <==> tokenId >= s.nextTokenId)
      && (r == Err(MissingKey) <==> tokenId < s.nextTokenId && tokenId !in s.ledger)
      && (r == Err(NOT_OWNER_CANNOT_BURN) <==> tokenId in s.ledger && s.ledger[tokenId] != sender)
      && (r.Ok? <==> tokenId in s.ledger && s.ledger[tokenId] == sender)
      && (r.Ok? ==>
            && r.value.ledger.Keys == s.ledger.Keys - {tokenId}
            && tokenId !in r.value.tokenMetadata
            && r.value.tokenMetadata.Keys == s.tokenMetadata.Keys - {tokenId}
            && (forall t :: t in r.value.tokenMetadata ==> r.value.tokenMetadata[t] == s.tokenMetadata[t])
            && (forall t :: t in r.value.ledger ==> r.value.ledger[t] == s.ledger[t])
            && r.value.nextTokenId == s.nextTokenId
            && r.value == s.(ledger := r.value.ledger, tokenMetadata := r.value.tokenMetadata)
            && Inv(r.value))
  {
  }

  /** A token that was minted and burned: its id is below the counter and has no owner. */
  predicate Retired(s: Storage, tokenId: nat)
  {
    tokenId < s.nextTokenId && tokenId !in s.ledger
  }

  /**
   * A burned id stays burned: no entrypoint gives it an owner again, whoever
   * calls it and with whatever arguments.
   */
  lemma RetiredStaysRetired(s: Storage, tokenId: nat, sender: Address, to: Address, metadata: TokenInfo,
                            batch: seq<TransferGroup>, updates: seq<OperatorUpdate>, burned: nat,
                            list: AddressList, add: bool, address: Address)
    requires Retired(s, tokenId)
    ensures Mint(s, sender, to, metadata).Ok? ==> Retired(Mint(s, sender, to, metadata).value, tokenId)
    ensures Transfer(s, sender, batch).Ok? ==> Retired(Transfer(s, sender, batch).value, tokenId)
    ensures UpdateOperators(s, sender, updates).Ok? ==> Retired(UpdateOperators(s, sender, updates).value, tokenId)
    ensures Burn(s, sender, burned).Ok? ==> Retired(Burn(s, sender, burned).value, tokenId)
    ensures UpdateAddressList(s, sender, list, add, address).Ok? ==>
      Retired(UpdateAddressList(s, sender, list, add, address).value, tokenId)
  {
    if Transfer(s, sender, batch).Ok? {
      TransferEffect(s, sender, batch);
    }
    UpdateOperatorsOutcome(s, sender, updates);
  }

  // ---------------------------------------------------------------------------
  // The address lists

  /**
   * The child and parent entrypoints succeed exactly when the sender is the
   * stored administrator, and then add or remove `address` in that one set
   * and change nothing else.
   */
  lemma UpdateAddressListEffect(s: Storage, sender: Address, list: AddressList, add: bool, address: Address)
    ensures var r := UpdateAddressList(s, sender, list, add, address);
      && (r.Ok? <==> sender == s.admin)
      && (r.Err? ==> r.error == OnlyAdmin(add, list))
      && (r.Ok? ==> (address in AddressSet(r.value, list) <==> add))
      && (r.Ok? ==> forall a :: a != address ==> (a in AddressSet(r.value, list) <==> a in AddressSet(s, list)))
      && (r.Ok? ==> forall other :: other != list ==> AddressSet(r.value, other) == AddressSet(s, other))
      && (r.Ok? ==> r.value.ledger == s.ledger && r.value.operators == s.operators
                    && r.value.tokenMetadata == s.tokenMetadata && r.value.nextTokenId == s.nextTokenId
                    && r.value.admin == s.admin)
  {
  }

  // ---------------------------------------------------------------------------
  // balance_of and the views

  /**
   * Under the invariant: `balance_of` for one request and the `get_balance`
   * view agree on success; a token has exactly one owner with balance 1 and
   * everybody else has 0; a burned id makes both abort, while
   * `total_supply` still answers 1 for it; and `all_tokens` lists burned ids too.
   */
  lemma ViewsAgree(s: Storage, owner: Address, tokenId: nat)
    requires Inv(s)
    ensures var req := BalanceRequest(owner, tokenId);
      && (BalanceOf(s, [req]).Ok? <==> GetBalance(s, owner, tokenId).Ok?)
      && (BalanceOf(s, [req]).Ok? ==> BalanceOf(s, [req]).value == [BalanceResponse(req, GetBalance(s, owner, tokenId).value)])
    ensures GetBalance(s, owner, tokenId) == Ok(1) <==> tokenId in s.ledger && s.ledger[tokenId] == owner
    ensures forall other :: GetBalance(s, owner, tokenId) == Ok(1) && GetBalance(s, other, tokenId) == Ok(1) ==> other == owner
    ensures Retired(s, tokenId) ==>
      GetBalance(s, owner, tokenId) == Err(MissingKey) && TotalSupply(s, tokenId) == Ok(1) && tokenId in AllTokens(s)
    ensures TotalSupply(s, tokenId).Ok? <==> tokenId < s.nextTokenId
    ensures tokenId < s.nextTokenId ==> RequestBalance(s, BalanceRequest(owner, tokenId)) == GetBalance(s, owner, tokenId)
    ensures tokenId >= s.nextTokenId ==>
      RequestBalance(s, BalanceRequest(owner, tokenId)) == Err(UNDEFINED_BALANCE)
      && GetBalance(s, owner, tokenId) == Err(UNDEFINED_OFFCHAIN_BALANCE)
  {
    var req := BalanceRequest(owner, tokenId);
    var r := BalanceOf(s, [req]);
    if r.Ok? {
      assert r.value[0] == BalanceResponse(req, GetBalance(s, owner, tokenId).value);
    }
    if Retired(s, tokenId) {
      assert AllTokens(s)[tokenId] == tokenId;
    }
  }

  // ---------------------------------------------------------------------------
  // The contract's own test scenario

  /**
   * The administrator mints token 0 to itself, grants and revokes an
   * operator, and transfers the token to `alice`; afterwards `get_balance`
   * answers 0 for the administrator and 1 for `alice`, and the owner then
   * burns it.
   */
  lemma MintGrantRevokeTransferBurn(alice: Address, bob: Address)
    requires alice != ADMIN_ADDRESS
    ensures var admin := ADMIN_ADDRESS;
      var s1 := Mint(Init(admin), admin, admin, map[]);
      && s1.Ok?
      && GetBalance(s1.value, admin, 0) == Ok(1)
      && var s2 := UpdateOperators(s1.value, admin, [AddOperator(OperatorKey(admin, bob, 0))]);
      && s2.Ok? && IsOperator(s2.value, OperatorKey(admin, bob, 0))
      && var s3 := UpdateOperators(s2.value, admin, [RemoveOperator(OperatorKey(admin, bob, 0))]);
      && s3.Ok? && !IsOperator(s3.value, OperatorKey(admin, bob, 0))
      && var s4 := Transfer(s3.value, admin, [TransferGroup(admin, [Tx(alice, 0, 1)])]);
      && s4.Ok?
      && GetBalance(s4.value, admin, 0) == Ok(0)
      && GetBalance(s4.value, alice, 0) == Ok(1)
      && Burn(s4.value, admin, 0) == Err(NOT_OWNER_CANNOT_BURN)
      && Burn(s4.value, alice, 0).Ok?
      && Burn(s4.value, alice, 1) == Err(BURN_UNDEFINED)
  {
    var admin := ADMIN_ADDRESS;
    var s1 := Mint(Init(admin), admin, admin, map[]).value;
    var key := OperatorKey(admin, bob, 0);
    UpdateOperatorsOutcome(s1, admin, [AddOperator(key)]);
    var s2 := UpdateOperators(s1, admin, [AddOperator(key)]).value;
    UpdateOperatorsOutcome(s2, admin, [RemoveOperator(key)]);
    var s3 := UpdateOperators(s2, admin, [RemoveOperator(key)]).value;
    SingleTx(s3, admin, admin, Tx(alice, 0, 1));
  }
}
