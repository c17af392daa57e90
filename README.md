# Two on-chain FA2 ledgers for Tezos art, modelled in Dafny

This project models the two SmartPy contracts of the repository that hold
tokens. Both follow the TZIP-12 (FA2) multi-asset interface.

- `FA2_core` is an editions ledger. Each token id is minted once in any
  quantity. The ledger keeps a balance per (owner, token id), a recorded
  supply per id, and a count of tokens still in circulation. Mint,
  transfer and burn run under a reentrancy lock. Burned units go to a burn
  address rather than disappearing.
- `Fa2NftMint` is a one-of-one ledger. Each token id has a single owner.
  Burning deletes the entry, and ids are never handed out twice.

Both ledgers share the FA2 operator model: an owner lets an operator move
its units of one token id. Both also carry admin-managed address lists:
collaborators, children and parents in the editions ledger, children and
parents in the NFT ledger.

Each contract is modelled twice:

- A specification module (`EditionsSpec`, `NftSpec`) holds the storage as
  a datatype. It has one function per entrypoint and view, mapping the
  storage before a call to the storage after it or to the error that
  aborts the call.
- A contract module (`EditionsContract`, `NftContract`) holds a class
  whose fields are the storage. Its methods update those fields step by
  step, with loops over transfer batches and operator updates. Each method
  is proved to leave exactly the storage the specification computes. When
  it aborts, it leaves the storage it started from, because the host
  rolls back a failed call.

The proof modules (`EditionsProofs`, `NftProofs`) state what each
entrypoint requires and does, and that the storage invariants hold from
origination on. They also prove the following:

- transfers conserve every token's ledger sum;
- batches are ordered and all-or-nothing;
- a burned NFT id never gets an owner again;
- the two defects listed under Findings.

Errors are modelled as follows:

- `Failwith(message)` is an `sp.verify` that fails, with its message.
- `MissingKey` is a read of an absent big-map entry.
- `AsNatFailure` is `sp.as_nat` of a negative value.

SmartPy's `&` and `|` are short-circuit operators, and the order of the
checks follows that.

## Model

| member | source | states |
|---|---|---|
| OperatorSet.Add | ZeroContract-v2-Onchain-Tezos-Editions.py:116-117 | afterwards the key is an operator and every other key keeps its membership |
| OperatorSet.Remove | ZeroContract-v2-Onchain-Tezos-Editions.py:119-120 | afterwards the key is not an operator (removing an absent key is no error) and every other key keeps its membership |
| OperatorSet.IsMember | ZeroContract-v2-Onchain-Tezos-Editions.py:122-123 | `is_member`: membership of the exact (owner, operator, token) key; `OperatorSet.Add` and `OperatorSet.Remove` state how it changes |
| OperatorSet.Apply | ZeroContract-v2-Onchain-Tezos-Editions.py:338-354 | one authorised variant: afterwards its key is an operator exactly when the variant is an add, and every other key keeps its membership |
| OperatorSet.ApplyAll | ZeroContract-v2-Onchain-Tezos-Editions.py:337-354 | the authorised variants in list order; `OperatorSet.ApplyAllGranted` states the result for every key |
| OperatorSet.ApplyAllGranted | ZeroContract-v2-Onchain-Tezos-Editions.py:337-354 | after a list of updates applied in order, a key is an operator exactly when the last variant naming it is an add, or no variant names it and it was one before |
| Fa2Types.Range | ZeroContract-v2-Onchain-Tezos-Editions.py:455 | `sp.range(0, n)` is the ids 0 to n-1, in order |
| EditionsSpec.WithLock | ZeroContract-v2-Onchain-Tezos-Editions.py:196-202 | a call made while the lock is held fails with "Reentrancy detected"; a successful guarded call leaves the lock released |
| EditionsSpec.BalanceOf | ZeroContract-v2-Onchain-Tezos-Editions.py:310-333 | succeeds exactly when every requested token has metadata, else FA2_TOKEN_UNDEFINED; one response per request, in order, carrying the request and the owner's balance (0 without an entry) |
| EditionsSpec.AllTokens | ZeroContract-v2-Onchain-Tezos-Editions.py:453-455 | the view lists the ids 0 up to the token count, not up to `next_token_id` |
| EditionsSpec.TokenIdSetContains | ZeroContract-v2-Onchain-Tezos-Editions.py:163-164 | `contains`: the ids below the set's size; `EditionsSpec.TokenIdSetAdd` states how adding changes it |
| EditionsSpec.TokenIdSetAdd | ZeroContract-v2-Onchain-Tezos-Editions.py:159-164 | adding succeeds exactly for the next consecutive id, which the set then contains along with every id it held before (the class does not call it: `mint` increments `next_token_id` itself, so this is no guard on `mint`) |
| EditionsSpec.MintAction | ZeroContract-v2-Onchain-Tezos-Editions.py:211-252 | the body of `mint` under the lock; its contract is stated by `EditionsProofs.MintEffect` and `EditionsProofs.MintKeepsInv` through `Mint` |
| EditionsSpec.Mint | ZeroContract-v2-Onchain-Tezos-Editions.py:209-253 | `mint` under the reentrancy guard; stated by `EditionsProofs.MintEffect`, `EditionsProofs.MintKeepsInv` and `EditionsProofs.MintKeepsCount` |
| EditionsSpec.TransferTx | ZeroContract-v2-Onchain-Tezos-Editions.py:264-306 | one tx of `transfer`; stated by `EditionsProofs.TransferTxOutcome`, `EditionsProofs.ZeroAmountTx` and `EditionsProofs.TransferTxKeepsSupply` |
| EditionsSpec.ApplyTxs | ZeroContract-v2-Onchain-Tezos-Editions.py:262-306 | the txs of one group in order; stated by `EditionsProofs.ApplyTxsEffect` and `EditionsProofs.ApplyTxsAppend` |
| EditionsSpec.ApplyBatch | ZeroContract-v2-Onchain-Tezos-Editions.py:261-306 | the groups of a batch in order; stated by `EditionsProofs.ApplyBatchEffect` |
| EditionsSpec.Transfer | ZeroContract-v2-Onchain-Tezos-Editions.py:256-307 | `transfer` under the reentrancy guard; stated by `EditionsProofs.TransferEffect`, `EditionsProofs.TransferKeepsInv` and `EditionsProofs.BatchSeesEarlierDebits` |
| EditionsSpec.BurnAction | ZeroContract-v2-Onchain-Tezos-Editions.py:362-393 | the body of `burn` under the lock; stated by `EditionsProofs.BurnEffect` through `Burn` |
| EditionsSpec.Burn | ZeroContract-v2-Onchain-Tezos-Editions.py:360-394 | `burn` under the reentrancy guard; stated by `EditionsProofs.BurnEffect`, `EditionsProofs.BurnKeepsInv` and `EditionsProofs.BurnCountsTwice` |
| EditionsSpec.UpdateOperator | ZeroContract-v2-Onchain-Tezos-Editions.py:338-354 | one variant: FA2_NOT_OWNER unless the key names the sender as owner, else the variant applied; stated by `EditionsProofs.ApplyUpdatesOutcome` |
| EditionsSpec.ApplyUpdates | ZeroContract-v2-Onchain-Tezos-Editions.py:337-354 | the variants in order, the first unauthorised one failing the call; `EditionsProofs.ApplyUpdatesOutcome` states it succeeds exactly when every variant names the sender as owner and then equals `OperatorSet.ApplyAll` |
| EditionsSpec.UpdateOperators | ZeroContract-v2-Onchain-Tezos-Editions.py:335-354 | `update_operators`; stated by `EditionsProofs.ApplyUpdatesOutcome`, `EditionsProofs.UpdateOperatorsEffect` and `EditionsProofs.SingleOperatorUpdate` |
| EditionsSpec.UpdateAddressList | ZeroContract-v2-Onchain-Tezos-Editions.py:396-430 | the six admin-only list entrypoints; stated by `EditionsProofs.UpdateAddressListEffect` |
| EditionsSpec.GetBalance | ZeroContract-v2-Onchain-Tezos-Editions.py:432-443 | the `get_balance` view; stated by `EditionsProofs.ViewsAgree` |
| EditionsSpec.CountTokens | ZeroContract-v2-Onchain-Tezos-Editions.py:444-446 | the `count_tokens` view; `EditionsProofs.ViewsAgree` states it is the length of `all_tokens` and at most `next_token_id` |
| EditionsSpec.DoesTokenExist | ZeroContract-v2-Onchain-Tezos-Editions.py:448-451 | the `does_token_exist` view; `EditionsProofs.ViewsAgree` states it holds exactly below `next_token_id` |
| EditionsSpec.TotalSupply | ZeroContract-v2-Onchain-Tezos-Editions.py:457-459 | the `total_supply` view; `EditionsProofs.ViewsAgree` states it answers exactly below `next_token_id` |
| EditionsSpec.IsOperator | ZeroContract-v2-Onchain-Tezos-Editions.py:461-473 | the `is_operator` view; stated by `EditionsProofs.UpdateOperatorsEffect` and `EditionsProofs.SingleOperatorUpdate` |
| EditionsProofs.InitInv | ZeroContract-v2-Onchain-Tezos-Editions.py:176-193 | the originated storage satisfies the invariant (no lock, ids below `next_token_id` are exactly those with metadata and supply, supply never above the ledger sum, count at most the number of ids) |
| EditionsProofs.TransferTxOutcome | ZeroContract-v2-Onchain-Tezos-Editions.py:262-306 | each error of one tx holds exactly under its condition, in source order (FA2_NOT_OPERATOR, FA2_TOKEN_UNDEFINED, FA2_INSUFFICIENT_BALANCE); on success only the ledger changes, `from` is debited and `to` credited by the amount |
| EditionsProofs.ZeroAmountTx | ZeroContract-v2-Onchain-Tezos-Editions.py:279-280 | an amount of 0 never fails on balance and, once authorised for a defined token, changes nothing |
| EditionsProofs.TransferTxKeepsSupply | ZeroContract-v2-Onchain-Tezos-Editions.py:280-306 | a successful tx keeps every token's ledger sum |
| EditionsProofs.ApplyTxsEffect | ZeroContract-v2-Onchain-Tezos-Editions.py:262-306 | a successful group writes only the ledger, keeps every ledger sum, and leaves every entry no tx names untouched |
| EditionsProofs.ApplyBatchEffect | ZeroContract-v2-Onchain-Tezos-Editions.py:261-306 | the same for a whole batch |
| EditionsProofs.ApplyTxsAppend | ZeroContract-v2-Onchain-Tezos-Editions.py:262 | txs run in order, each on the ledger the earlier ones left: a group split in two is the first half followed by the second |
| EditionsProofs.TransferEffect | ZeroContract-v2-Onchain-Tezos-Editions.py:256-307 | a successful `transfer` changes only the ledger, keeps every ledger sum and releases the lock |
| EditionsProofs.TransferKeepsInv | ZeroContract-v2-Onchain-Tezos-Editions.py:256-307 | `transfer` keeps the invariant |
| EditionsProofs.MintEffect | ZeroContract-v2-Onchain-Tezos-Editions.py:209-253 | succeeds exactly for the admin or a collaborator, else "Not authorized to mint"; the new id is `next_token_id`, `to` holds the whole amount, supply and ledger sum are the amount, no other token's sum changes, both counters grow by one |
| EditionsProofs.MintKeepsInv | ZeroContract-v2-Onchain-Tezos-Editions.py:209-253 | `mint` keeps the invariant |
| EditionsProofs.BurnEffect | ZeroContract-v2-Onchain-Tezos-Editions.py:360-394 | each outcome holds exactly under its condition: FA2_TOKEN_UNDEFINED for an id not yet minted, FA2_NOT_OWNER without an entry, FA2_INSUFFICIENT_BALANCE when the balance or the recorded supply is below the amount, the `sp.as_nat` abort when the supply reaches 0 with the count already 0; on success the amount moves from the sender's entry to the burn address's entry and every other (owner, token) balance is unchanged, so every ledger sum is kept, the supply drops by the amount and the count drops when the supply is now 0 |
| EditionsProofs.BurnKeepsInv | ZeroContract-v2-Onchain-Tezos-Editions.py:360-394 | `burn` keeps the invariant |
| EditionsProofs.ApplyUpdatesOutcome | ZeroContract-v2-Onchain-Tezos-Editions.py:335-354 | `update_operators` succeeds exactly when every variant names the sender as owner, else FA2_NOT_OWNER, and then applies all of them in order |
| EditionsProofs.UpdateOperatorsEffect | ZeroContract-v2-Onchain-Tezos-Editions.py:335-354 | on success only the operator set changes, and a key is an operator exactly when the last variant naming it added it, or none named it and it was one before |
| EditionsProofs.SingleOperatorUpdate | ZeroContract-v2-Onchain-Tezos-Editions.py:339-354 | one add by the owner grants the key and one remove revokes it; every other key keeps its state |
| EditionsProofs.UpdateOperatorsKeepsInv | ZeroContract-v2-Onchain-Tezos-Editions.py:335-354 | `update_operators` keeps the invariant |
| EditionsProofs.UpdateAddressListEffect | ZeroContract-v2-Onchain-Tezos-Editions.py:396-430 | the six list entrypoints succeed exactly for the stored admin, else their "Only the contract owner can ..." message; the address is then in the list exactly after an add; nothing else changes |
| EditionsProofs.ViewsAgree | ZeroContract-v2-Onchain-Tezos-Editions.py:432-459 | under the invariant, `does_token_exist`, `total_supply` and `balance_of` agree that a token exists exactly below `next_token_id`; `get_balance` agrees with `balance_of` where it answers, and aborts on a missing entry where `balance_of` answers 0 |
| EditionsProofs.MintedToIsFirstMint | ZeroContract-v2-Onchain-Tezos-Editions.py:534-535 | the admin's first mint creates token 0 with the whole amount held by the recipient |
| EditionsProofs.BatchSeesEarlierDebits | ZeroContract-v2-Onchain-Tezos-Editions.py:551-572 | minted 10, a batch sending 3 then 8 fails with FA2_INSUFFICIENT_BALANCE and changes nothing, while sending 3 alone leaves 7 and 3 |
| EditionsProofs.OperatorGrantScenario | ZeroContract-v2-Onchain-Tezos-Editions.py:621-649 | an operator cannot move the artist's units until the artist adds it, then can, and never for another token id |
| EditionsProofs.InitCountCovers | ZeroContract-v2-Onchain-Tezos-Editions.py:186 | at origination the count covers the tokens in circulation |
| EditionsProofs.BurnCountsTwice | ZeroContract-v2-Onchain-Tezos-Editions.py:391-393 | as written: after burning out token 0, a zero-amount burn of it drops the count to 0 while token 1 is still held, and the holder's burn of token 1 then aborts |
| EditionsProofs.BurnCorrectedCountsOnce | ZeroContract-v2-Onchain-Tezos-Editions.py:391-393 | with the corrected burn, the same calls leave the count at 1 and the burn of token 1 succeeds |
| EditionsProofs.BurnCorrectedKeepsCount | ZeroContract-v2-Onchain-Tezos-Editions.py:391-393 | the corrected burn never aborts on the count, succeeds exactly when the id is defined and balance and supply suffice, and keeps the invariant and the count covering the tokens in circulation |
| EditionsProofs.MintKeepsCount | ZeroContract-v2-Onchain-Tezos-Editions.py:248-249 | `mint` keeps the count covering the tokens in circulation |
| EditionsProofs.OthersKeepCount | ZeroContract-v2-Onchain-Tezos-Editions.py:256-354 | `transfer` and `update_operators` keep the count covering the tokens in circulation |
| EditionsContract.FA2Core.constructor | ZeroContract-v2-Onchain-Tezos-Editions.py:176-193 | the fields start as the originated storage, which satisfies the invariant |
| EditionsContract.FA2Core.RollBack | ZeroContract-v2-Onchain-Tezos-Editions.py:195-201 | the host's abort of a failed call: every field takes back its value from before the call |
| EditionsContract.FA2Core.Mint | ZeroContract-v2-Onchain-Tezos-Editions.py:209-253 | leaves exactly the storage `mint` specifies (the lock taken and released), or on failure the old storage and the error; keeps the invariant |
| EditionsContract.FA2Core.MintBody | ZeroContract-v2-Onchain-Tezos-Editions.py:211-252 | the field updates of `mint` under the lock equal the specified action |
| EditionsContract.FA2Core.Transfer | ZeroContract-v2-Onchain-Tezos-Editions.py:256-307 | leaves exactly the storage `transfer` specifies, or the old storage and the first error; keeps the invariant |
| EditionsContract.FA2Core.TransferBody | ZeroContract-v2-Onchain-Tezos-Editions.py:261-306 | the loop over groups, with its invariant, equals the ordered batch |
| EditionsContract.FA2Core.TransferGroupTxs | ZeroContract-v2-Onchain-Tezos-Editions.py:262-306 | the loop over one group's txs, with its invariant, equals the ordered group |
| EditionsContract.FA2Core.TransferOne | ZeroContract-v2-Onchain-Tezos-Editions.py:264-306 | the in-place checks and ledger writes of one tx equal the specified tx |
| EditionsContract.FA2Core.Burn | ZeroContract-v2-Onchain-Tezos-Editions.py:360-394 | leaves exactly the storage `burn` specifies, or the old storage and the error; keeps the invariant |
| EditionsContract.FA2Core.BurnBody | ZeroContract-v2-Onchain-Tezos-Editions.py:362-393 | the in-place writes of `burn`, including the ledger write undone by a later failing check, equal the specified action |
| EditionsContract.FA2Core.UpdateOperators | ZeroContract-v2-Onchain-Tezos-Editions.py:335-354 | the loop over variants leaves exactly the specified operator set, or the old storage and FA2_NOT_OWNER |
| EditionsContract.FA2Core.AddCollaborator | ZeroContract-v2-Onchain-Tezos-Editions.py:396-400 | admin-only add, as specified |
| EditionsContract.FA2Core.RemoveCollaborator | ZeroContract-v2-Onchain-Tezos-Editions.py:402-406 | admin-only remove, as specified |
| EditionsContract.FA2Core.AddChild | ZeroContract-v2-Onchain-Tezos-Editions.py:408-412 | admin-only add, as specified |
| EditionsContract.FA2Core.RemoveChild | ZeroContract-v2-Onchain-Tezos-Editions.py:414-418 | admin-only remove, as specified |
| EditionsContract.FA2Core.AddParent | ZeroContract-v2-Onchain-Tezos-Editions.py:420-424 | admin-only add, as specified |
| EditionsContract.FA2Core.RemoveParent | ZeroContract-v2-Onchain-Tezos-Editions.py:426-430 | admin-only remove, as specified |
| NftSpec.BalanceOf | ZeroContract-OnchainTezosArt.py:148-162 | succeeds exactly when every request is answerable; otherwise fails with the error of the first failing request, every earlier one being answerable; one response per request, in order, carrying 1 for the owner and 0 for anybody else |
| NftSpec.AllTokens | ZeroContract-OnchainTezosArt.py:194-196 | the view lists every id below `next_token_id`, burned ones included |
| NftSpec.Mint | ZeroContract-OnchainTezosArt.py:169-177 | `mint`; stated by `NftProofs.MintEffect` |
| NftSpec.TransferTx | ZeroContract-OnchainTezosArt.py:109-134 | one tx of `transfer`; stated by `NftProofs.TransferTxOutcome` |
| NftSpec.Transfer | ZeroContract-OnchainTezosArt.py:106-134 | the whole batch in order; stated by `NftProofs.ApplyTxsEffect`, `NftProofs.TransferEffect` and `NftProofs.SingleTx` |
| NftSpec.ApplyTxs | ZeroContract-OnchainTezosArt.py:109-134 | the txs of one group in order, each on the ledger the earlier ones left; stated by `NftProofs.ApplyTxsEffect` |
| NftSpec.OnlyOwner | ZeroContract-OnchainTezosArt.py:75-76 | the `only_owner` check; `NftProofs.UpdateOperatorsOutcome` states which error it gives: the missing-key read for a burned id, "You are not the Owner of this Token" for another owner's token |
| NftSpec.UpdateOperator | ZeroContract-OnchainTezosArt.py:141-146 | one variant as written: `only_owner` on the key's token, then the key added or removed whatever its owner field; stated by `NftProofs.UpdateOperatorsOutcome` and `NftProofs.GrantForAnotherOwner` |
| NftSpec.UpdateOperators | ZeroContract-OnchainTezosArt.py:137-146 | `update_operators` as written; stated by `NftProofs.UpdateOperatorsOutcome`, `NftProofs.UpdateOperatorsGrants` and `NftProofs.GrantForAnotherOwner` |
| NftSpec.Burn | ZeroContract-OnchainTezosArt.py:182-188 | `burn`; stated by `NftProofs.BurnEffect` and `NftProofs.RetiredStaysRetired` |
| NftSpec.UpdateAddressList | ZeroContract-OnchainTezosArt.py:81-103 | the four admin-only list entrypoints; stated by `NftProofs.UpdateAddressListEffect` |
| NftSpec.RequestBalance | ZeroContract-OnchainTezosArt.py:150-159 | one request of `balance_of`; `NftProofs.ViewsAgree` states it equals `get_balance` below `next_token_id` and fails with its own message above |
| NftSpec.GetBalance | ZeroContract-OnchainTezosArt.py:198-207 | the `get_balance` view; stated by `NftProofs.ViewsAgree` |
| NftSpec.TotalSupply | ZeroContract-OnchainTezosArt.py:209-212 | the `total_supply` view; `NftProofs.ViewsAgree` states it answers exactly below `next_token_id`, burned ids included |
| NftSpec.IsOperator | ZeroContract-OnchainTezosArt.py:214-216 | the `is_operator` view; stated by `NftProofs.UpdateOperatorsGrants` |
| NftSpec.GetAdministrator | ZeroContract-OnchainTezosArt.py:190-192 | the `get_administrator` view answers the module constant; `NftProofs.MintEffect` states it is exactly the address `mint` admits |
| NftProofs.InitInv | ZeroContract-OnchainTezosArt.py:45-73 | the originated storage satisfies the invariant (owned ids are exactly the ids with metadata, all below `next_token_id`) |
| NftProofs.MintEffect | ZeroContract-OnchainTezosArt.py:169-177 | succeeds exactly when the sender is the module constant's address, which `get_administrator` answers, else "Only the Collector Owner can Mint Tokens"; the new id had no owner, `to` owns it with balance 1 and it gets the given metadata, no existing token changes hands or metadata, the counter grows by one, and nothing else changes |
| NftProofs.TransferTxOutcome | ZeroContract-OnchainTezosArt.py:109-134 | each outcome of one tx holds exactly under its condition, in source order (a never-minted id, a sender neither `from` nor its operator, the missing-key read for a burned id, "Transfer more than Owned" for an amount of 2 or more or for 1 unit `from` does not own); an amount of 0 changes nothing; a successful positive amount is 1 unit owned by `from`, which passes to `to`, and no other token or field changes |
| NftProofs.SingleTx | ZeroContract-OnchainTezosArt.py:107-134 | a batch of one group of one tx does what that tx does |
| NftProofs.ApplyTxsEffect | ZeroContract-OnchainTezosArt.py:109-134 | a successful group writes only the ledger, creates and destroys no token, and leaves every token it does not name with its owner |
| NftProofs.TransferEffect | ZeroContract-OnchainTezosArt.py:106-134 | the same for a whole batch, which also keeps the invariant |
| NftProofs.UpdateOperatorsOutcome | ZeroContract-OnchainTezosArt.py:137-146 | succeeds exactly when the sender owns the token of every variant, and then applies them in order to the operator set only; otherwise the first variant whose token the sender does not own decides the error: the missing-key read for a burned id, else "You are not the Owner of this Token" |
| NftProofs.UpdateOperatorsGrants | ZeroContract-OnchainTezosArt.py:137-146 | after a successful `update_operators`, `is_operator` answers yes for a key exactly when the last variant naming it added it, or none named it and it was an operator before |
| NftProofs.UpdateOperatorsKeepsInv | ZeroContract-OnchainTezosArt.py:137-146 | `update_operators` keeps the invariant |
| NftProofs.GrantForAnotherOwner | ZeroContract-OnchainTezosArt.py:141-143 | as written, a token's owner can add an operator key whose owner field is any other address |
| NftProofs.PlantedOperatorTheft | ZeroContract-OnchainTezosArt.py:106-146 | as written: the seller plants the key (buyer, seller, 0), sells token 0 to the buyer, and takes it back as the buyer's "operator" |
| NftProofs.UpdateOperatorsOwnKeysOutcome | ZeroContract-OnchainTezosArt.py:137-146 | corrected: succeeds exactly when the sender owns every variant's token and is the owner the variant names; never changes a key of another owner; otherwise the first variant failing either check decides the error, the missing-key read for a burned id, else "You are not the Owner of this Token" |
| NftProofs.PlantingRefused | ZeroContract-OnchainTezosArt.py:141-143 | corrected: the planting step of the theft is refused |
| NftProofs.BurnEffect | ZeroContract-OnchainTezosArt.py:182-188 | fails on an id never minted, aborts on an id already burned, otherwise succeeds exactly for the owner; deletes the token's ledger and metadata entries, leaves every other token's owner and metadata as they were, keeps the counter and every other field, and keeps the invariant |
| NftProofs.RetiredStaysRetired | ZeroContract-OnchainTezosArt.py:106-188 | a burned id gets no owner again from any entrypoint |
| NftProofs.UpdateAddressListEffect | ZeroContract-OnchainTezosArt.py:81-103 | the child and parent entrypoints succeed exactly for the stored admin, add or remove the address in that one set, and change nothing else |
| NftProofs.ViewsAgree | ZeroContract-OnchainTezosArt.py:148-211 | under the invariant, `balance_of` and `get_balance` agree; exactly one owner has balance 1; a burned id makes both abort while `total_supply` still answers 1 and `all_tokens` still lists it |
| NftProofs.MintGrantRevokeTransferBurn | ZeroContract-OnchainTezosArt.py:248-313 | the contract's own scenario: mint to the admin, grant and revoke an operator, transfer to Alice (balances 0 and 1), only Alice may burn, and an unminted id cannot be burned |
| NftContract.Fa2NftMint.constructor | ZeroContract-OnchainTezosArt.py:45-73 | the fields start as the originated storage, which satisfies the invariant |
| NftContract.Fa2NftMint.RollBack | ZeroContract-OnchainTezosArt.py:106-146 | the host's abort of a failed call: every field takes back its value from before the call |
| NftContract.Fa2NftMint.Mint | ZeroContract-OnchainTezosArt.py:169-177 | leaves exactly the storage `mint` specifies, or the old storage and the error; keeps the invariant |
| NftContract.Fa2NftMint.Transfer | ZeroContract-OnchainTezosArt.py:106-134 | the loop over groups leaves exactly the storage `transfer` specifies, or the old storage and the first error; keeps the invariant |
| NftContract.Fa2NftMint.TransferGroupTxs | ZeroContract-OnchainTezosArt.py:109-134 | the loop over one group's txs equals the ordered group |
| NftContract.Fa2NftMint.TransferOne | ZeroContract-OnchainTezosArt.py:110-134 | the in-place checks and ledger write of one tx equal the specified tx |
| NftContract.Fa2NftMint.UpdateOperators | ZeroContract-OnchainTezosArt.py:137-146 | the loop over variants, each checked by `only_owner`, leaves exactly the specified operator set, or the old storage and the error |
| NftContract.Fa2NftMint.Burn | ZeroContract-OnchainTezosArt.py:182-188 | leaves exactly the storage `burn` specifies, or the old storage and the error; keeps the invariant |
| NftContract.Fa2NftMint.AddChild | ZeroContract-OnchainTezosArt.py:81-85 | admin-only add, as specified |
| NftContract.Fa2NftMint.RemoveChild | ZeroContract-OnchainTezosArt.py:87-91 | admin-only remove, as specified |
| NftContract.Fa2NftMint.AddParent | ZeroContract-OnchainTezosArt.py:93-97 | admin-only add, as specified |
| NftContract.Fa2NftMint.RemoveParent | ZeroContract-OnchainTezosArt.py:99-103 | admin-only remove, as specified |

## Left out

- `mutez_transfer` is not modelled. It moves tez, not tokens, and it reads an `administrator` field that the storage does not have.
- The `balance_of` callback is not modelled. The response list is modelled; sending it to the callback contract is an outgoing operation with no effect on the storage.
- The malicious-contract reentrancy test is not modelled as a call. Only the guard is modelled: `WithLock`, and the lock taken by the editions class. The nested call it stops is not.
- Token metadata contents are not modelled. The `token_info` map is stored and never inspected.
- The contract-level metadata, `contract_id` and metadata helpers are not modelled. They are constants that no entrypoint reads.
- `get_children` and `get_parents` are not modelled. They return a stored set unchanged.
- Of `get_administrator` in the NFT ledger, only the answer is modelled (`NftSpec.GetAdministrator`): it answers the module constant.
- The overflow checks of the editions ledger are not modelled as branches. They compare unbounded naturals (`a + b >= a`), so they always pass.
- The editions ledger value `{balance}` is flattened to its balance. The record has no other field.
- The balance check that the editions `burn` repeats on an unchanged ledger is modelled once. The second check cannot fail when the first passed.
- The error messages of the unused editions error class are not modelled (FA2_OPERATORS_UNSUPPORTED, FA2_NOT_ADMIN, FA2_NOT_ADMIN_OR_OPERATOR). No entrypoint raises them.
- The two contract classes model the code as written. The corrected definitions under Findings (`EditionsSpec.BurnCorrected`, `NftSpec.UpdateOperatorsOwnKeys`) are specified and proved beside them but are not run by the classes.

## Findings

| source | as written | input that shows it | evidently intended | confidence | as-written member | corrected member |
|---|---|---|---|---|---|---|
| ZeroContract-OnchainTezosArt.py:141-146 | `update_operators` checks only that the sender owns the token; the key's `owner` field is never compared with the sender | the owner O of token 0 adds key (B, O, 0), sells token 0 to B, then transfers it from B back to O as B's "operator" | only the owner named in a key may add or remove it, as the editions ledger checks at lines 341 and 349 | medium, not executed | NftProofs.PlantedOperatorTheft | NftProofs.UpdateOperatorsOwnKeysOutcome |
| ZeroContract-v2-Onchain-Tezos-Editions.py:391-393 | the token count drops whenever the supply left is 0, also when a burn of 0 units leaves an already burned-out token at 0 | mint 1 unit each of tokens 0 and 1 to H; H burns 1 of token 0, then 0 of token 0: the count is 0 while H holds token 1, and H's burn of token 1 aborts in `sp.as_nat` | a token leaves the count once, when a burn takes its supply from positive to 0 | medium, not executed | EditionsProofs.BurnCountsTwice | EditionsProofs.BurnCorrectedKeepsCount |
