/**
 * Properties of the editions ledger: conservation of every token's supply
 * by transfers, the ordered and all-or-nothing batch semantics, the
 * authorisation rules, and the storage invariant `Inv` kept by every
 * entrypoint.
 */
module EditionsProofs {
  import opened Fa2Types
  import OperatorSet
  import opened EditionsSpec

  // ---------------------------------------------------------------------------
  // Sums over the ledger

  lemma {:induction false} SumOverRemove(ledger: Ledger, keys: set<LedgerKey>, key: LedgerKey, tokenId: nat)
    requires key in keys
    ensures SumOver(ledger, keys, tokenId) == Held(ledger, key, tokenId) + SumOver(ledger, keys - {key}, tokenId)
    decreases keys
  {
    var k := Pick(keys);
    if k != key {
      SumOverRemove(ledger, keys - {k}, key, tokenId);
      SumOverRemove(ledger, keys - {key}, k, tokenId);
      assert keys - {k} - {key} == keys - {key} - {k};
    }
  }

  lemma {:induction false} SumOverFrame(ledger1: Ledger, ledger2: Ledger, keys: set<LedgerKey>, tokenId: nat)
    requires forall k :: k in keys ==> Held(ledger1, k, tokenId) == Held(ledger2, k, tokenId)
    ensures SumOver(ledger1, keys, tokenId) == SumOver(ledger2, keys, tokenId)
    decreases keys
  {
    if keys != {} {
      SumOverFrame(ledger1, ledger2, keys - {Pick(keys)}, tokenId);
    }
  }

  lemma {:induction false} SumOverZero(ledger: Ledger, keys: set<LedgerKey>, tokenId: nat)
    requires forall k :: k in keys ==> k.tokenId != tokenId
    ensures SumOver(ledger, keys, tokenId) == 0
    decreases keys
  {
    if keys != {} {
      SumOverZero(ledger, keys - {Pick(keys)}, tokenId);
    }
  }

  /** Writing one entry changes each token's supply by what that entry contributes. */
  lemma SupplyUpdate(ledger: Ledger, key: LedgerKey, v: nat, tokenId: nat)
    ensures Supply(ledger[key := v], tokenId) + Held(ledger, key, tokenId)
         == Supply(ledger, tokenId) + Held(ledger[key := v], key, tokenId)
  {
    var updated := ledger[key := v];
    SumOverRemove(updated, updated.Keys, key, tokenId);
    assert updated.Keys - {key} == ledger.Keys - {key};
    SumOverFrame(updated, ledger, ledger.Keys - {key}, tokenId);
    if key in ledger {
      SumOverRemove(ledger, ledger.Keys, key, tokenId);
    } else {
      assert ledger.Keys - {key} == ledger.Keys;
    }
  }

  /** A credit raises the supply of the credited token by the amount and no other. */
  lemma CreditSupply(ledger: Ledger, key: LedgerKey, amount: nat, tokenId: nat)
    ensures Supply(Credit(ledger, key, amount), tokenId)
         == Supply(ledger, tokenId) + (if key.tokenId == tokenId then amount else 0)
  {
    SupplyUpdate(ledger, key, Credit(ledger, key, amount)[key], tokenId);
  }

  /** Moving `amount` from one owner's entry to another's, for the same token, keeps every supply. */
  lemma MoveKeepsSupply(ledger: Ledger, src: LedgerKey, dst: LedgerKey, amount: nat, tokenId: nat)
    requires src in ledger && ledger[src] >= amount && src.tokenId == dst.tokenId
    ensures Supply(Credit(ledger[src := ledger[src] - amount], dst, amount), tokenId) == Supply(ledger, tokenId)
  {
    SupplyUpdate(ledger, src, ledger[src] - amount, tokenId);
    CreditSupply(ledger[src := ledger[src] - amount], dst, amount, tokenId);
  }

  /** The supply of a token no entry is for is 0. */
  lemma SupplyOfAbsentToken(ledger: Ledger, tokenId: nat)
    requires forall k :: k in ledger ==> k.tokenId != tokenId
    ensures Supply(ledger, tokenId) == 0
  {
    SumOverZero(ledger, ledger.Keys, tokenId);
  }

  // ---------------------------------------------------------------------------
  // One transfer tx

  /**
   * A tx fails with FA2_NOT_OPERATOR exactly when the sender is neither
   * `from` nor an operator of `from` for that very token id; otherwise it
   * fails with FA2_TOKEN_UNDEFINED exactly when the token has no metadata,
   * and otherwise with FA2_INSUFFICIENT_BALANCE exactly when a positive
   * amount exceeds `from`'s balance. A successful tx debits `from`, credits
   * `to`, and changes no other entry and no other field.
   */
  lemma TransferTxOutcome(s: Storage, sender: Address, from: Address, tx: Tx)
    ensures var r := TransferTx(s, sender, from, tx);
      && (r == Err(NOT_OPERATOR) <==> from != sender && OperatorKey(from, sender, tx.tokenId) !in s.operators)
      && (r == Err(TOKEN_UNDEFINED) <==> MayTransfer(s, sender, from, tx.tokenId) && tx.tokenId !in s.tokenMetadata)
      && (r == Err(INSUFFICIENT_BALANCE) <==>
            MayTransfer(s, sender, from, tx.tokenId) && tx.tokenId in s.tokenMetadata
            && tx.amount > 0 && Balance(s.ledger, from, tx.tokenId) < tx.amount)
      && (r.Ok? <==>
            MayTransfer(s, sender, from, tx.tokenId) && tx.tokenId in s.tokenMetadata
            && (tx.amount == 0 || tx.amount <= Balance(s.ledger, from, tx.tokenId)))
      && (r.Ok? ==> r.value == s.(ledger := r.value.ledger))
      && (r.Ok? ==> forall owner, t ::
            Balance(r.value.ledger, owner, t) + (if LedgerKey(owner, t) == LedgerKey(from, tx.tokenId) then tx.amount else 0)
            == Balance(s.ledger, owner, t) + (if LedgerKey(owner, t) == LedgerKey(tx.to, tx.tokenId) then tx.amount else 0))
  {
  }

  /** A tx of amount 0 that passes the authorisation and existence checks changes nothing and cannot fail on balance. */
  lemma ZeroAmountTx(s: Storage, sender: Address, from: Address, to: Address, tokenId: nat)
    ensures var r := TransferTx(s, sender, from, Tx(to, tokenId, 0));
      && r != Err(INSUFFICIENT_BALANCE)
      && (MayTransfer(s, sender, from, tokenId) && tokenId in s.tokenMetadata ==> r == Ok(s))
  {
  }

  /** A successful tx keeps the supply of every token. */
  lemma TransferTxKeepsSupply(s: Storage, sender: Address, from: Address, tx: Tx, tokenId: nat)
    requires TransferTx(s, sender, from, tx).Ok?
    ensures Supply(TransferTx(s, sender, from, tx).value.ledger, tokenId) == Supply(s.ledger, tokenId)
  {
    if tx.amount > 0 {
      MoveKeepsSupply(s.ledger, LedgerKey(from, tx.tokenId), LedgerKey(tx.to, tx.tokenId), tx.amount, tokenId);
    }
  }

  // ---------------------------------------------------------------------------
  // Batches

  /** The ledger entries a transfer group may write. */
  function TxKeys(from: Address, txs: seq<Tx>): set<LedgerKey>
    decreases |txs|
  {
    if txs == [] then {}
    else {LedgerKey(from, txs[0].tokenId), LedgerKey(txs[0].to, txs[0].tokenId)} + TxKeys(from, txs[1..])
  }

  /** The ledger entries a transfer batch may write. */
  function BatchKeys(batch: seq<TransferGroup>): set<LedgerKey>
    decreases |batch|
  {
    if batch == [] then {} else TxKeys(batch[0].from, batch[0].txs) + BatchKeys(batch[1..])
  }

  /** A successful group writes only the ledger, keeps every supply, and leaves every entry it does not name alone. */
  lemma {:induction false} ApplyTxsEffect(s: Storage, sender: Address, from: Address, txs: seq<Tx>)
    requires ApplyTxs(s, sender, from, txs).Ok?
    ensures var s' := ApplyTxs(s, sender, from, txs).value;
      && s' == s.(ledger := s'.ledger)
      && (forall t :: Supply(s'.ledger, t) == Supply(s.ledger, t))
      && (forall key :: key !in TxKeys(from, txs) ==> (key in s'.ledger <==> key in s.ledger))
      && (forall key :: key !in TxKeys(from, txs) && key in s.ledger ==> s'.ledger[key] == s.ledger[key])
      && (forall key :: key in s'.ledger ==> key in s.ledger || key.tokenId in s.tokenMetadata)
    decreases |txs|
  {
    if txs != [] {
      var mid := TransferTx(s, sender, from, txs[0]).value;
      TransferTxOutcome(s, sender, from, txs[0]);
      ApplyTxsEffect(mid, sender, from, txs[1..]);
      forall t ensures Supply(mid.ledger, t) == Supply(s.ledger, t) {
        TransferTxKeepsSupply(s, sender, from, txs[0], t);
      }
    }
  }

  /** A successful batch writes only the ledger, keeps every supply, and leaves every entry no tx names alone. */
  lemma {:induction false} ApplyBatchEffect(s: Storage, sender: Address, batch: seq<TransferGroup>)
    requires ApplyBatch(s, sender, batch).Ok?
    ensures var s' := ApplyBatch(s, sender, batch).value;
      && s' == s.(ledger := s'.ledger)
      && (forall t :: Supply(s'.ledger, t) == Supply(s.ledger, t))
      && (forall key :: key !in BatchKeys(batch) ==> (key in s'.ledger <==> key in s.ledger))
      && (forall key :: key !in BatchKeys(batch) && key in s.ledger ==> s'.ledger[key] == s.ledger[key])
      && (forall key :: key in s'.ledger ==> key in s.ledger || key.tokenId in s.tokenMetadata)
    decreases |batch|
  {
    if batch != [] {
      ApplyTxsEffect(s, sender, batch[0].from, batch[0].txs);
      ApplyBatchEffect(ApplyTxs(s, sender, batch[0].from, batch[0].txs).value, sender, batch[1..]);
    }
  }

  /**
   * Txs apply in order to the ledger left by the ones before them: a group
   * that is the concatenation of two lists behaves as the first list
   * followed by the second on its result.
   */
  lemma {:induction false} ApplyTxsAppend(s: Storage, sender: Address, from: Address, first: seq<Tx>, second: seq<Tx>)
    ensures ApplyTxs(s, sender, from, first + second)
         == match ApplyTxs(s, sender, from, first)
            case Err(e) => Err(e)
            case Ok(mid) => ApplyTxs(mid, sender, from, second)
    decreases |first|
  {
    if first == [] {
      assert first + second == second;
    } else {
      assert (first + second)[0] == first[0];
      assert (first + second)[1..] == first[1..] + second;
      match TransferTx(s, sender, from, first[0])
      case Err(e) =>
      case Ok(s') => ApplyTxsAppend(s', sender, from, first[1..], second);
    }
  }

  /** A successful `transfer` keeps every token's supply and every field but the ledger, and releases the lock. */
  lemma TransferEffect(s: Storage, sender: Address, batch: seq<TransferGroup>)
    requires Transfer(s, sender, batch).Ok?
    ensures var s' := Transfer(s, sender, batch).value;
      && s' == s.(ledger := s'.ledger, lock := false)
      && (forall t :: Supply(s'.ledger, t) == Supply(s.ledger, t))
      && (forall key :: key !in BatchKeys(batch) && key in s.ledger ==> key in s'.ledger && s'.ledger[key] == s.ledger[key])
  {
    ApplyBatchEffect(s.(lock := true), sender, batch);
  }

  /** `transfer` keeps the storage invariant. */
  lemma TransferKeepsInv(s: Storage, sender: Address, batch: seq<TransferGroup>)
    requires Inv(s) && Transfer(s, sender, batch).Ok?
    ensures Inv(Transfer(s, sender, batch).value)
  {
    ApplyBatchEffect(s.(lock := true), sender, batch);
  }

  // ---------------------------------------------------------------------------
  // mint

  /**
   * `mint` succeeds exactly when the sender is the admin or a collaborator,
   * and fails with "Not authorized to mint" otherwise. On success the new
   * token takes the old `nextTokenId`, gets its metadata and a supply of
   * `amount`, all of which `to` holds; both counters grow by one; no other
   * token's supply changes; and the invariant still holds.
   */
  lemma MintEffect(s: Storage, sender: Address, to: Address, amount: nat, metadata: TokenInfo)
    requires Inv(s)
    ensures var r := Mint(s, sender, to, amount, metadata);
      && (r.Ok? <==> sender == s.admin || sender in s.collaborators)
      && (r.Err? ==> r.error == NOT_AUTHORIZED_TO_MINT)
      && (r.Ok? ==>
            var id := s.nextTokenId;
            var s' := r.value;
            && Inv(s')
            && s' == s.(tokenMetadata := s.tokenMetadata[id := TokenMetadata(id, metadata)],
                        ledger := s.ledger[LedgerKey(to, id) := amount],
                        totalSupply := s.totalSupply[id := amount],
                        allTokens := s.allTokens + 1,
                        nextTokenId := id + 1)
            && Balance(s'.ledger, to, id) == amount
            && Supply(s'.ledger, id) == amount
            && (forall t :: t != id ==> Supply(s'.ledger, t) == Supply(s.ledger, t)))
  {
    var r := Mint(s, sender, to, amount, metadata);
    if r.Ok? {
      var id := s.nextTokenId;
      var key := LedgerKey(to, id);
      var s' := r.value;
      assert key !in s.ledger && id !in s.totalSupply;
      assert s'.ledger == s.ledger[key := amount];
      forall t ensures Supply(s'.ledger, t) == Supply(s.ledger, t) + (if t == id then amount else 0) {
        CreditSupply(s.ledger, key, amount, t);
      }
      SupplyOfAbsentToken(s.ledger, id);
    }
  }

  /** `mint` keeps the storage invariant. */
  lemma MintKeepsInv(s: Storage, sender: Address, to: Address, amount: nat, metadata: TokenInfo)
    requires Inv(s) && Mint(s, sender, to, amount, metadata).Ok?
    ensures Inv(Mint(s, sender, to, amount, metadata).value)
  {
    MintEffect(s, sender, to, amount, metadata);
  }

  // ---------------------------------------------------------------------------
  // burn

  /**
   * `burn` fails with FA2_TOKEN_UNDEFINED exactly for ids not yet minted,
   * then with FA2_NOT_OWNER exactly when the sender has no entry for the
   * token, then with FA2_INSUFFICIENT_BALANCE exactly when the balance or
   * the recorded supply is below `amount`, and aborts in `sp.as_nat` exactly
   * when the supply reaches 0 while the token count already is 0. On
   * success `amount` units move from the sender's entry to the burn
   * address's entry for the token and every other balance is unchanged, so
   * every token's ledger sum is unchanged; the recorded
   * supply drops by `amount`; the token count drops by one when that
   * supply is now 0; and the invariant still holds.
   */
  lemma BurnEffect(s: Storage, sender: Address, tokenId: nat, amount: nat)
    requires Inv(s)
    ensures var r := Burn(s, sender, tokenId, amount);
      && (r == Err(TOKEN_UNDEFINED) <==> tokenId >= s.nextTokenId)
      && (r == Err(NOT_OWNER) <==> tokenId < s.nextTokenId && LedgerKey(sender, tokenId) !in s.ledger)
      && (r.Ok? <==>
            && tokenId < s.nextTokenId && LedgerKey(sender, tokenId) in s.ledger
            && amount <= Balance(s.ledger, sender, tokenId) && amount <= s.totalSupply[tokenId]
            && (amount == s.totalSupply[tokenId] ==> s.allTokens > 0))
      && (r == Err(INSUFFICIENT_BALANCE) <==>
            && tokenId < s.nextTokenId && LedgerKey(sender, tokenId) in s.ledger
            && (Balance(s.ledger, sender, tokenId) < amount || s.totalSupply[tokenId] < amount))
      && (r == Err(AsNatFailure) <==>
            && tokenId < s.nextTokenId && LedgerKey(sender, tokenId) in s.ledger
            && amount <= Balance(s.ledger, sender, tokenId)
            && amount == s.totalSupply[tokenId] && s.allTokens == 0)
      && (r.Ok? ==>
            var s' := r.value;
            && Inv(s')
            && s' == s.(ledger := s'.ledger, totalSupply := s'.totalSupply, allTokens := s'.allTokens)
            && (forall t :: Supply(s'.ledger, t) == Supply(s.ledger, t))
            && s'.totalSupply == s.totalSupply[tokenId := s.totalSupply[tokenId] - amount]
            && s'.allTokens == (if s'.totalSupply[tokenId] == 0 then s.allTokens - 1 else s.allTokens)
            && (forall owner, t ::
                  Balance(s'.ledger, owner, t) + (if LedgerKey(owner, t) == LedgerKey(sender, tokenId) then amount else 0)
                  == Balance(s.ledger, owner, t) + (if LedgerKey(owner, t) == LedgerKey(BURN_ADDRESS, tokenId) then amount else 0)))
  {
    var r := Burn(s, sender, tokenId, amount);
    if r.Ok? {
      var user := LedgerKey(sender, tokenId);
      forall t ensures Supply(r.value.ledger, t) == Supply(s.ledger, t) {
        MoveKeepsSupply(s.ledger, user, LedgerKey(BURN_ADDRESS, tokenId), amount, t);
      }
    }
  }

  /** `burn` keeps the storage invariant. */
  lemma BurnKeepsInv(s: Storage, sender: Address, tokenId: nat, amount: nat)
    requires Inv(s) && Burn(s, sender, tokenId, amount).Ok?
    ensures Inv(Burn(s, sender, tokenId, amount).value)
  {
    BurnEffect(s, sender, tokenId, amount);
  }

  // ---------------------------------------------------------------------------
  // update_operators

  /** `update_operators` succeeds exactly when every variant names the sender as owner, and then applies them all in order. */
  lemma {:induction false} ApplyUpdatesOutcome(ops: set<OperatorKey>, sender: Address, updates: seq<OperatorUpdate>)
    ensures ApplyUpdates(ops, sender, updates)
         == if forall i :: 0 <= i < |updates| ==> updates[i].key.owner == sender
            then Ok(OperatorSet.ApplyAll(ops, updates))
            else Err(NOT_OWNER)
    decreases |updates|
  {
    if updates != [] {
      ApplyUpdatesOutcome(OperatorSet.Apply(ops, updates[0]), sender, updates[1..]);
      assert forall i :: 1 <= i < |updates| ==> updates[i] == updates[1..][i - 1];
    }
  }

  /**
   * After a successful `update_operators`, a key is an operator exactly when
   * the last variant naming it added it, or none named it and it was one
   * before; nothing but the operator set changes.
   */
  lemma UpdateOperatorsEffect(s: Storage, sender: Address, updates: seq<OperatorUpdate>)
    ensures var r := UpdateOperators(s, sender, updates);
      && (r.Ok? <==> forall i :: 0 <= i < |updates| ==> updates[i].key.owner == sender)
      && (r.Err? ==> r.error == NOT_OWNER)
      && (r.Ok? ==> r.value == s.(operators := r.value.operators))
      && (r.Ok? ==> forall key :: IsOperator(r.value, key) <==> OperatorSet.GrantedAfter(s.operators, updates, key))
  {
    ApplyUpdatesOutcome(s.operators, sender, updates);
    forall key ensures key in OperatorSet.ApplyAll(s.operators, updates) <==> OperatorSet.GrantedAfter(s.operators, updates, key) {
      OperatorSet.ApplyAllGranted(s.operators, updates, key);
    }
  }

  /** A single add by its owner grants the key; a single remove revokes it; other keys keep their state. */
  lemma SingleOperatorUpdate(s: Storage, sender: Address, key: OperatorKey, add: bool)
    requires key.owner == sender
    ensures var r := UpdateOperators(s, sender, [if add then AddOperator(key) else RemoveOperator(key)]);
      && r.Ok?
      && (IsOperator(r.value, key) <==> add)
      && (forall k :: k != key ==> (IsOperator(r.value, k) <==> IsOperator(s, k)))
  {
    var updates := [if add then AddOperator(key) else RemoveOperator(key)];
    UpdateOperatorsEffect(s, sender, updates);
    assert updates[1..] == [];
  }

  /** `update_operators` keeps the storage invariant. */
  lemma UpdateOperatorsKeepsInv(s: Storage, sender: Address, updates: seq<OperatorUpdate>)
    requires Inv(s) && UpdateOperators(s, sender, updates).Ok?
    ensures Inv(UpdateOperators(s, sender, updates).value)
  {
    UpdateOperatorsEffect(s, sender, updates);
  }

  // ---------------------------------------------------------------------------
  // Admin-managed address sets

  /**
   * The six list entrypoints succeed exactly for the admin and fail with
   * their "Only the contract owner can ..." message otherwise; afterwards
   * the address is in the list after an add and not after a remove, and
   * nothing else changes.
   */
  lemma UpdateAddressListEffect(s: Storage, sender: Address, list: AddressList, add: bool, address: Address)
    ensures var r := UpdateAddressList(s, sender, list, add, address);
      && (r.Ok? <==> sender == s.admin)
      && (r.Err? ==> r.error == OnlyAdmin(add, list))
      && (r.Ok? ==> (address in AddressSet(r.value, list) <==> add))
      && (r.Ok? ==> forall a :: a != address ==> (a in AddressSet(r.value, list) <==> a in AddressSet(s, list)))
      && (r.Ok? ==> r.value == WithAddressSet(s, list, AddressSet(r.value, list)))
      && (r.Ok? && Inv(s) ==> Inv(r.value))
  {
  }

  // ---------------------------------------------------------------------------
  // Views

  /**
   * Under the invariant a token exists, for `does_token_exist`,
   * `balance_of` and `total_supply` alike, exactly when its id is below
   * `nextTokenId`; `get_balance` agrees with `balance_of` where it answers,
   * and aborts on a missing entry where `balance_of` answers 0.
   */
  lemma ViewsAgree(s: Storage, owner: Address, tokenId: nat)
    requires Inv(s)
    ensures DoesTokenExist(s, tokenId) <==> tokenId < s.nextTokenId
    ensures CountTokens(s) == |AllTokens(s)| <= s.nextTokenId
    ensures TotalSupply(s, tokenId).Ok? <==> tokenId < s.nextTokenId
    ensures BalanceOf(s, [BalanceRequest(owner, tokenId)]).Ok? <==> tokenId < s.nextTokenId
    ensures GetBalance(s, owner, tokenId).Ok? ==> GetBalance(s, owner, tokenId).value == Balance(s.ledger, owner, tokenId)
    ensures GetBalance(s, owner, tokenId) == Err(MissingKey) <==>
      tokenId < s.nextTokenId && LedgerKey(owner, tokenId) !in s.ledger
    ensures GetBalance(s, owner, tokenId) == Err(MissingKey) ==>
      BalanceOf(s, [BalanceRequest(owner, tokenId)]) == Ok([BalanceResponse(BalanceRequest(owner, tokenId), 0)])
  {
    var request := BalanceRequest(owner, tokenId);
    var r := BalanceOf(s, [request]);
    if GetBalance(s, owner, tokenId) == Err(MissingKey) {
      assert r.Ok? && |r.value| == 1 && r.value[0] == BalanceResponse(request, 0);
      assert r.value == [BalanceResponse(request, 0)];
    }
  }

  // ---------------------------------------------------------------------------
  // The invariant holds from origination on

  lemma InitInv()
    ensures Inv(Init())
  {
    forall t ensures Supply(Init().ledger, t) == 0 {
      SupplyOfAbsentToken(Init().ledger, t);
    }
  }

  // ---------------------------------------------------------------------------
  // Scenarios

  /** The storage after the admin's first mint of `amount` units to `to`. */
  lemma MintedToIsFirstMint(to: Address, amount: nat)
    ensures Mint(Init(), ADMIN_ADDRESS, to, amount, map[]) == Ok(MintedTo(to, amount))
  {
  }

  function MintedTo(to: Address, amount: nat): Storage
  {
    Init().(ledger := map[LedgerKey(to, 0) := amount],
            tokenMetadata := map[0 := TokenMetadata(0, map[])],
            totalSupply := map[0 := amount],
            allTokens := 1,
            nextTokenId := 1)
  }

  /**
   * Mint 10 units to an artist; a batch sending 3 and then 8 of them fails
   * with FA2_INSUFFICIENT_BALANCE because the second tx sees the first
   * debit, while sending 3 alone leaves 7 and 3.
   */
  lemma BatchSeesEarlierDebits()
    ensures var artist, collector, other := "tz1artist", "tz1collector", "tz1other";
      var minted := Mint(Init(), ADMIN_ADDRESS, artist, 10, map[]);
      && minted.Ok?
      && Balance(minted.value.ledger, artist, 0) == 10
      && Transfer(minted.value, artist, [TransferGroup(artist, [Tx(collector, 0, 3), Tx(other, 0, 8)])])
         == Err(INSUFFICIENT_BALANCE)
      && var single := Transfer(minted.value, artist, [TransferGroup(artist, [Tx(collector, 0, 3)])]);
      && single.Ok?
      && Balance(single.value.ledger, artist, 0) == 7
      && Balance(single.value.ledger, collector, 0) == 3
  {
    MintedToIsFirstMint("tz1artist", 10);
    var artist, collector, other := "tz1artist", "tz1collector", "tz1other";
    var s := MintedTo(artist, 10);
    var locked := s.(lock := true);
    var first, second := Tx(collector, 0, 3), Tx(other, 0, 8);
    var afterFirst := TransferTx(locked, artist, artist, first);
    assert afterFirst.Ok?;
    assert Balance(afterFirst.value.ledger, artist, 0) == 7;
    assert Balance(afterFirst.value.ledger, collector, 0) == 3;
    assert TransferTx(afterFirst.value, artist, artist, second) == Err(INSUFFICIENT_BALANCE);
    assert [first, second][1..] == [second];
    assert ApplyTxs(locked, artist, artist, [first, second]) == Err(INSUFFICIENT_BALANCE);
    assert ApplyTxs(locked, artist, artist, [first]) == afterFirst by {
      assert [first][1..] == [];
    }
    var both := [TransferGroup(artist, [first, second])];
    var one := [TransferGroup(artist, [first])];
    assert both[1..] == [] && one[1..] == [];
    assert ApplyBatch(locked, artist, both) == Err(INSUFFICIENT_BALANCE);
    assert ApplyBatch(locked, artist, one) == afterFirst;
  }

  /** An operator grant lets its holder move the owner's units of that token only, and only once granted. */
  lemma OperatorGrantScenario()
    ensures var artist, operator, collector := "tz1artist", "tz1operator", "tz1collector";
      var minted := Mint(Init(), ADMIN_ADDRESS, artist, 10, map[]);
      var batch := [TransferGroup(artist, [Tx(collector, 0, 1)])];
      && minted.Ok?
      && Transfer(minted.value, operator, batch) == Err(NOT_OPERATOR)
      && var granted := UpdateOperators(minted.value, artist, [AddOperator(OperatorKey(artist, operator, 0))]);
      && granted.Ok?
      && Transfer(granted.value, operator, batch).Ok?
      && Transfer(granted.value, operator, [TransferGroup(artist, [Tx(collector, 1, 1)])]) == Err(NOT_OPERATOR)
  {
    MintedToIsFirstMint("tz1artist", 10);
    var artist, operator, collector := "tz1artist", "tz1operator", "tz1collector";
    var key := OperatorKey(artist, operator, 0);
    var s := MintedTo(artist, 10);
    var tx := Tx(collector, 0, 1);
    var batch := [TransferGroup(artist, [tx])];
    assert batch[1..] == [] && [tx][1..] == [];
    assert TransferTx(s.(lock := true), operator, artist, tx) == Err(NOT_OPERATOR);
    SingleOperatorUpdate(s, artist, key, true);
    UpdateOperatorsEffect(s, artist, [AddOperator(key)]);
    var granted := UpdateOperators(s, artist, [AddOperator(key)]).value;
    assert TransferTx(granted.(lock := true), operator, artist, tx).Ok?;
    var other := Tx(collector, 1, 1);
    assert [other][1..] == [];
    var otherKey := OperatorKey(artist, operator, 1);
    assert otherKey != key && !IsOperator(s, otherKey) && !IsOperator(granted, otherKey);
    assert TransferTx(granted.(lock := true), operator, artist, other) == Err(NOT_OPERATOR);
  }

  // ---------------------------------------------------------------------------
  // The token count

  /** The tokens still in circulation: those with a positive recorded supply. */
  ghost function Circulating(s: Storage): set<nat>
  {
    set t | t in s.totalSupply && s.totalSupply[t] > 0
  }

  /** `count_tokens` is at least the number of tokens still in circulation. */
  ghost predicate CountCovers(s: Storage)
  {
    |Circulating(s)| <= s.allTokens
  }

  lemma InitCountCovers()
    ensures CountCovers(Init())
  {
    assert Circulating(Init()) == {};
  }

  /**
   * As written, a burn of 0 units of a token already burned out lowers the
   * count a second time. Mint one unit each of tokens 0 and 1 to a holder,
   * burn token 0's unit, then burn 0 units of token 0: the count is 0 while
   * token 1 is still held, and the holder's burn of token 1 then aborts in
   * `sp.as_nat`.
   */
  lemma BurnCountsTwice()
    ensures var holder := "tz1holder";
      var s1 := Mint(Init(), ADMIN_ADDRESS, holder, 1, map[]);
      && s1.Ok?
      && var s2 := Mint(s1.value, ADMIN_ADDRESS, holder, 1, map[]);
      && s2.Ok?
      && var s3 := Burn(s2.value, holder, 0, 1);
      && s3.Ok? && CountTokens(s3.value) == 1
      && var s4 := Burn(s3.value, holder, 0, 0);
      && s4.Ok? && CountTokens(s4.value) == 0
      && Balance(s4.value.ledger, holder, 1) == 1 && TotalSupply(s4.value, 1) == Ok(1)
      && !CountCovers(s4.value)
      && Burn(s4.value, holder, 1, 1) == Err(AsNatFailure)
  {
    var holder := "tz1holder";
    MintedToIsFirstMint(holder, 1);
    var s1 := MintedTo(holder, 1);
    var s2 := Mint(s1, ADMIN_ADDRESS, holder, 1, map[]).value;
    var s3 := Burn(s2, holder, 0, 1).value;
    var s4 := Burn(s3, holder, 0, 0).value;
    assert 1 in Circulating(s4);
  }

  /** The corrected burn on the same calls: the count stays 1 and the burn of token 1 succeeds. */
  lemma BurnCorrectedCountsOnce()
    ensures var holder := "tz1holder";
      var s2 := Mint(MintedTo(holder, 1), ADMIN_ADDRESS, holder, 1, map[]);
      && s2.Ok?
      && var s3 := BurnCorrected(s2.value, holder, 0, 1);
      && s3.Ok?
      && var s4 := BurnCorrected(s3.value, holder, 0, 0);
      && s4.Ok? && CountTokens(s4.value) == 1
      && BurnCorrected(s4.value, holder, 1, 1).Ok?
  {
  }

  /**
   * The corrected burn never aborts on the count, and keeps both the
   * storage invariant and the count covering the tokens in circulation.
   */
  lemma BurnCorrectedKeepsCount(s: Storage, sender: Address, tokenId: nat, amount: nat)
    requires Inv(s) && CountCovers(s)
    ensures var r := BurnCorrected(s, sender, tokenId, amount);
      && r != Err(AsNatFailure)
      && (r.Ok? <==>
            && tokenId < s.nextTokenId && LedgerKey(sender, tokenId) in s.ledger
            && amount <= Balance(s.ledger, sender, tokenId) && amount <= s.totalSupply[tokenId])
      && (r.Ok? ==> Inv(r.value) && CountCovers(r.value))
  {
    var r := BurnCorrected(s, sender, tokenId, amount);
    if tokenId in s.totalSupply && s.totalSupply[tokenId] > 0 {
      assert tokenId in Circulating(s);
    }
    if r.Ok? {
      var s' := r.value;
      var user := LedgerKey(sender, tokenId);
      forall t ensures Supply(s'.ledger, t) == Supply(s.ledger, t) {
        MoveKeepsSupply(s.ledger, user, LedgerKey(BURN_ADDRESS, tokenId), amount, t);
      }
      if s.totalSupply[tokenId] == amount && amount > 0 {
        assert Circulating(s') == Circulating(s) - {tokenId};
      } else {
        assert Circulating(s') == Circulating(s);
      }
    }
  }

  /** `mint` keeps the count covering the tokens in circulation. */
  lemma MintKeepsCount(s: Storage, sender: Address, to: Address, amount: nat, metadata: TokenInfo)
    requires Inv(s) && CountCovers(s) && Mint(s, sender, to, amount, metadata).Ok?
    ensures CountCovers(Mint(s, sender, to, amount, metadata).value)
  {
    var s' := Mint(s, sender, to, amount, metadata).value;
    var id := s.nextTokenId;
    assert id !in Circulating(s);
    if amount > 0 {
      assert Circulating(s') == Circulating(s) + {id};
    } else {
      assert Circulating(s') == Circulating(s);
    }
  }

  /** `transfer` and `update_operators` change neither the supplies nor the count. */
  lemma OthersKeepCount(s: Storage, sender: Address, batch: seq<TransferGroup>, updates: seq<OperatorUpdate>)
    requires CountCovers(s)
    ensures Transfer(s, sender, batch).Ok? ==> CountCovers(Transfer(s, sender, batch).value)
    ensures UpdateOperators(s, sender, updates).Ok? ==> CountCovers(UpdateOperators(s, sender, updates).value)
  {
    if Transfer(s, sender, batch).Ok? {
      TransferEffect(s, sender, batch);
      assert Circulating(Transfer(s, sender, batch).value) == Circulating(s);
    }
    if UpdateOperators(s, sender, updates).Ok? {
      UpdateOperatorsEffect(s, sender, updates);
      assert Circulating(UpdateOperators(s, sender, updates).value) == Circulating(s);
    }
  }
}
