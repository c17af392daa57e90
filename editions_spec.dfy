/**
 * The editions ledger (`FA2_core`): a multi-asset FA2 ledger whose storage
 * is a value of `Storage` and whose entrypoints are functions from the
 * storage before a call to the storage after it, or to the error that
 * aborts the call (in which case the host keeps the storage as it was).
 */
module EditionsSpec {
  import opened Fa2Types
  import OperatorSet

  const ADMIN_ADDRESS: Address := "tz1ADDRESS"

  /** Where `burn` sends the burned units, for provenance. */
  const BURN_ADDRESS: Address := "tz1burnburnburnburnburnburnburjAYjjX"

  const TOKEN_UNDEFINED: Error := Failwith("FA2_TOKEN_UNDEFINED")
  const INSUFFICIENT_BALANCE: Error := Failwith("FA2_INSUFFICIENT_BALANCE")
  const NOT_OPERATOR: Error := Failwith("FA2_NOT_OPERATOR")
  const NOT_OWNER: Error := Failwith("FA2_NOT_OWNER")
  const NOT_AUTHORIZED_TO_MINT: Error := Failwith("Not authorized to mint")
  const REENTRANCY_DETECTED: Error := Failwith("Reentrancy detected")
  const TOKEN_IDS_NOT_CONSECUTIVE: Error := Failwith("Token-IDs should be consecutive")

  /** A key of the `ledger` big-map: the pair (owner, token id). */
  datatype LedgerKey = LedgerKey(owner: Address, tokenId: nat)

  /** The `ledger` big-map; its `{balance}` record values are flattened to the balance. */
  type Ledger = map<LedgerKey, nat>

  /** The contract's storage, field for field (the contract-level metadata and id blobs left out). */
  datatype Storage = Storage(
    lock: bool,
    ledger: Ledger,
    admin: Address,
    tokenMetadata: map<nat, TokenMetadata>,
    operators: set<OperatorKey>,
    allTokens: nat,
    nextTokenId: nat,
    totalSupply: map<nat, nat>,
    children: set<Address>,
    parents: set<Address>,
    collaborators: set<Address>)

  /** The storage a freshly originated contract starts from. */
  function Init(): Storage
  {
    Storage(false, map[], ADMIN_ADDRESS, map[], {}, 0, 0, map[], {}, {}, {})
  }

  /** The balance `balance_of` reports: the entry's balance, or 0 when there is no entry. */
  function Balance(ledger: Ledger, owner: Address, tokenId: nat): nat
  {
    var key := LedgerKey(owner, tokenId);
    if key in ledger then ledger[key] else 0
  }

  /** Add `amount` to the entry at `key`, creating the entry when it is absent. */
  function Credit(ledger: Ledger, key: LedgerKey, amount: nat): Ledger
  {
    if key in ledger then ledger[key := ledger[key] + amount] else ledger[key := amount]
  }

  // ---------------------------------------------------------------------------
  // Per-token sum of the ledger

  ghost function Pick<K>(keys: set<K>): (k: K)
    requires keys != {}
    ensures k in keys
  {
    var k :| k in keys; k
  }

  /** What entry `key` contributes to the sum of token `tokenId`. */
  ghost function Held(ledger: Ledger, key: LedgerKey, tokenId: nat): nat
  {
    if key in ledger && key.tokenId == tokenId then ledger[key] else 0
  }

  ghost function SumOver(ledger: Ledger, keys: set<LedgerKey>, tokenId: nat): nat
    decreases keys
  {
    if keys == {} then 0
    else
      var key := Pick(keys);
      Held(ledger, key, tokenId) + SumOver(ledger, keys - {key}, tokenId)
  }

  /** The sum, over every owner, of the balances of token `tokenId`. */
  ghost function Supply(ledger: Ledger, tokenId: nat): nat
  {
    SumOver(ledger, ledger.Keys, tokenId)
  }

  /**
   * What holds between two calls of a contract originated with `Init` and
   * driven only by its entrypoints: no call is in progress, the ids minted
   * so far are exactly those below `nextTokenId`, each with its metadata
   * and supply entry, every ledger entry is for such an id, the recorded
   * supply never exceeds what the ledger holds (burned units stay in the
   * ledger at the burn address), and the token count never exceeds the
   * number of ids.
   */
  ghost predicate Inv(s: Storage)
  {
    && !s.lock
    && (forall t: nat :: t in s.tokenMetadata <==> t < s.nextTokenId)
    && (forall t :: t in s.tokenMetadata ==> s.tokenMetadata[t].tokenId == t)
    && (forall t: nat :: t in s.totalSupply <==> t < s.nextTokenId)
    && (forall key :: key in s.ledger ==> key.tokenId < s.nextTokenId)
    && (forall t :: t in s.totalSupply ==> s.totalSupply[t] <= Supply(s.ledger, t))
    && s.allTokens <= s.nextTokenId
  }

  // ---------------------------------------------------------------------------
  // Reentrancy guard

  /**
   * `with_lock`: fail if the lock is held, otherwise hold it while `action`
   * runs and release it afterwards. When `action` fails the whole call is
   * rolled back, so the lock is as it was before.
   */
  function WithLock(s: Storage, action: Storage -> Result<Storage, Error>): (r: Result<Storage, Error>)
    ensures s.lock ==> r == Err(REENTRANCY_DETECTED)
    ensures r.Ok? ==> !r.value.lock
  {
    if s.lock then Err(REENTRANCY_DETECTED)
    else
      match action(s.(lock := true))
      case Err(e) => Err(e)
      case Ok(s') => Ok(s'.(lock := false))
  }

  // ---------------------------------------------------------------------------
  // mint

  function MintAction(s: Storage, sender: Address, to: Address, amount: nat, metadata: TokenInfo): Result<Storage, Error>
  {
    if sender != s.admin && sender !in s.collaborators then Err(NOT_AUTHORIZED_TO_MINT)
    else
      var tokenId := s.nextTokenId;
      var key := LedgerKey(to, tokenId);
      // The overflow checks of the source compare unbounded naturals and always pass.
      var ledger := Credit(s.ledger, key, amount);
      var supply :=
        if tokenId in s.totalSupply then s.totalSupply[tokenId := s.totalSupply[tokenId] + amount]
        else s.totalSupply[tokenId := amount];
      Ok(s.(tokenMetadata := s.tokenMetadata[tokenId := TokenMetadata(tokenId, metadata)],
            ledger := ledger,
            totalSupply := supply,
            allTokens := s.allTokens + 1,
            nextTokenId := tokenId + 1))
  }

  /** `mint`: a new token id, `amount` units of it credited to `to`. */
  function Mint(s: Storage, sender: Address, to: Address, amount: nat, metadata: TokenInfo): Result<Storage, Error>
  {
    WithLock(s, st => MintAction(st, sender, to, amount, metadata))
  }

  // ---------------------------------------------------------------------------
  // transfer

  /** May `sender` move `from`'s units of `tokenId`? Owners and their operators may; the admin has no override. */
  predicate MayTransfer(s: Storage, sender: Address, from: Address, tokenId: nat)
  {
    from == sender || OperatorSet.IsMember(s.operators, OperatorKey(from, sender, tokenId))
  }

  /** One tx of a transfer group, applied to the ledger as it stands after the txs before it. */
  function TransferTx(s: Storage, sender: Address, from: Address, tx: Tx): Result<Storage, Error>
  {
    if !MayTransfer(s, sender, from, tx.tokenId) then Err(NOT_OPERATOR)
    else if tx.tokenId !in s.tokenMetadata then Err(TOKEN_UNDEFINED)
    else if tx.amount == 0 then Ok(s)
    else
      var src := LedgerKey(from, tx.tokenId);
      var dst := LedgerKey(tx.to, tx.tokenId);
      if src !in s.ledger || s.ledger[src] < tx.amount then Err(INSUFFICIENT_BALANCE)
      else
        Ok(s.(ledger := Credit(s.ledger[src := s.ledger[src] - tx.amount], dst, tx.amount)))
  }

  /** The txs of one transfer group, in order; the first failure aborts. */
  function ApplyTxs(s: Storage, sender: Address, from: Address, txs: seq<Tx>): Result<Storage, Error>
    decreases |txs|
  {
    if txs == [] then Ok(s)
    else
      match TransferTx(s, sender, from, txs[0])
      case Err(e) => Err(e)
      case Ok(s') => ApplyTxs(s', sender, from, txs[1..])
  }

  /** The groups of a transfer batch, in order; the first failure aborts. */
  function ApplyBatch(s: Storage, sender: Address, batch: seq<TransferGroup>): Result<Storage, Error>
    decreases |batch|
  {
    if batch == [] then Ok(s)
    else
      match ApplyTxs(s, sender, batch[0].from, batch[0].txs)
      case Err(e) => Err(e)
      case Ok(s') => ApplyBatch(s', sender, batch[1..])
  }

  /** `transfer`: the whole batch under the reentrancy guard. */
  function Transfer(s: Storage, sender: Address, batch: seq<TransferGroup>): Result<Storage, Error>
  {
    WithLock(s, st => ApplyBatch(st, sender, batch))
  }

  // ---------------------------------------------------------------------------
  // burn

  /**
   * The body of `burn`. The balance check is written twice in the source on
   * an unchanged ledger; it is modelled once. The token count drops by one
   * whenever the remaining supply is 0, even when it already was.
   */
  function BurnAction(s: Storage, sender: Address, tokenId: nat, amount: nat): Result<Storage, Error>
  {
    if tokenId >= s.nextTokenId then Err(TOKEN_UNDEFINED)
    else
      var user := LedgerKey(sender, tokenId);
      if user !in s.ledger then Err(NOT_OWNER)
      else if s.ledger[user] < amount then Err(INSUFFICIENT_BALANCE)
      else
        var ledger := Credit(s.ledger[user := s.ledger[user] - amount], LedgerKey(BURN_ADDRESS, tokenId), amount);
        if tokenId !in s.totalSupply then Err(MissingKey)
        else if s.totalSupply[tokenId] < amount then Err(INSUFFICIENT_BALANCE)
        else
          var supply := s.totalSupply[tokenId] - amount;
          if supply == 0 && s.allTokens == 0 then Err(AsNatFailure)
          else
            Ok(s.(ledger := ledger,
                  totalSupply := s.totalSupply[tokenId := supply],
                  allTokens := if supply == 0 then s.allTokens - 1 else s.allTokens))
  }

  /** `burn`: move `amount` of the sender's units to the burn address and lower the supply. */
  function Burn(s: Storage, sender: Address, tokenId: nat, amount: nat): Result<Storage, Error>
  {
    WithLock(s, st => BurnAction(st, sender, tokenId, amount))
  }

  /**
   * `burn` as its comment intends it: the token count drops only when this
   * burn takes the supply from positive to 0, so that a token leaves the
   * count once. Everything else is as in `BurnAction`.
   */
  function BurnActionCorrected(s: Storage, sender: Address, tokenId: nat, amount: nat): Result<Storage, Error>
  {
    if tokenId >= s.nextTokenId then Err(TOKEN_UNDEFINED)
    else
      var user := LedgerKey(sender, tokenId);
      if user !in s.ledger then Err(NOT_OWNER)
      else if s.ledger[user] < amount then Err(INSUFFICIENT_BALANCE)
      else
        var ledger := Credit(s.ledger[user := s.ledger[user] - amount], LedgerKey(BURN_ADDRESS, tokenId), amount);
        if tokenId !in s.totalSupply then Err(MissingKey)
        else if s.totalSupply[tokenId] < amount then Err(INSUFFICIENT_BALANCE)
        else
          var supply := s.totalSupply[tokenId] - amount;
          var retires := supply == 0 && amount > 0;
          if retires && s.allTokens == 0 then Err(AsNatFailure)
          else
            Ok(s.(ledger := ledger,
                  totalSupply := s.totalSupply[tokenId := supply],
                  allTokens := if retires then s.allTokens - 1 else s.allTokens))
  }

  function BurnCorrected(s: Storage, sender: Address, tokenId: nat, amount: nat): Result<Storage, Error>
  {
    WithLock(s, st => BurnActionCorrected(st, sender, tokenId, amount))
  }

  // ---------------------------------------------------------------------------
  // update_operators

  /** One variant: only the owner named in the key may add or remove it. */
  function UpdateOperator(ops: set<OperatorKey>, sender: Address, update: OperatorUpdate): Result<set<OperatorKey>, Error>
  {
    if update.key.owner != sender then Err(NOT_OWNER)
    else Ok(OperatorSet.Apply(ops, update))
  }

  function ApplyUpdates(ops: set<OperatorKey>, sender: Address, updates: seq<OperatorUpdate>): Result<set<OperatorKey>, Error>
    decreases |updates|
  {
    if updates == [] then Ok(ops)
    else
      match UpdateOperator(ops, sender, updates[0])
      case Err(e) => Err(e)
      case Ok(ops') => ApplyUpdates(ops', sender, updates[1..])
  }

  /** `update_operators` (not guarded by the lock). */
  function UpdateOperators(s: Storage, sender: Address, updates: seq<OperatorUpdate>): Result<Storage, Error>
  {
    match ApplyUpdates(s.operators, sender, updates)
    case Err(e) => Err(e)
    case Ok(ops) => Ok(s.(operators := ops))
  }

  // ---------------------------------------------------------------------------
  // Admin-managed address sets

  datatype AddressList = Collaborators | Children | Parents
  {
    function Name(): string
    {
      match this
      case Collaborators => "collaborators"
      case Children => "children"
      case Parents => "parents"
    }
  }

  function AddressSet(s: Storage, list: AddressList): set<Address>
  {
    match list
    case Collaborators => s.collaborators
    case Children => s.children
    case Parents => s.parents
  }

  function WithAddressSet(s: Storage, list: AddressList, addresses: set<Address>): Storage
  {
    match list
    case Collaborators => s.(collaborators := addresses)
    case Children => s.(children := addresses)
    case Parents => s.(parents := addresses)
  }

  /** The message of a refused `add_`/`remove_` collaborator, child or parent call. */
  function OnlyAdmin(add: bool, list: AddressList): Error
  {
    Failwith("Only the contract owner can " + (if add then "add " else "remove ") + list.Name())
  }

  /**
   * `add_collaborator`, `remove_collaborator`, `add_child`, `remove_child`,
   * `add_parent`, `remove_parent`: admin only; removing an absent address is
   * not an error.
   */
  function UpdateAddressList(s: Storage, sender: Address, list: AddressList, add: bool, address: Address): Result<Storage, Error>
  {
    if sender != s.admin then Err(OnlyAdmin(add, list))
    else
      var current := AddressSet(s, list);
      Ok(WithAddressSet(s, list, if add then current + {address} else current - {address}))
  }

  // ---------------------------------------------------------------------------
  // balance_of and the views

  /**
   * The response list `balance_of` sends to its callback: one response per
   * request, in order; a request for a token without metadata aborts.
   */
  function BalanceOf(s: Storage, requests: seq<BalanceRequest>): (r: Result<seq<BalanceResponse>, Error>)
    ensures r.Ok? <==> forall i :: 0 <= i < |requests| ==> requests[i].tokenId in s.tokenMetadata
    ensures r.Err? ==> r.error == TOKEN_UNDEFINED
    ensures r.Ok? ==> |r.value| == |requests|
    ensures r.Ok? ==> forall i :: 0 <= i < |requests| ==>
      r.value[i] == BalanceResponse(requests[i], Balance(s.ledger, requests[i].owner, requests[i].tokenId))
    decreases |requests|
  {
    if requests == [] then Ok([])
    else if requests[0].tokenId !in s.tokenMetadata then Err(TOKEN_UNDEFINED)
    else
      match BalanceOf(s, requests[1..])
      case Err(e) => Err(e)
      case Ok(rest) =>
        Ok([BalanceResponse(requests[0], Balance(s.ledger, requests[0].owner, requests[0].tokenId))] + rest)
  }

  /** The `get_balance` view: unlike `balance_of`, it reads the entry without a default. */
  function GetBalance(s: Storage, owner: Address, tokenId: nat): Result<nat, Error>
  {
    var key := LedgerKey(owner, tokenId);
    if tokenId !in s.tokenMetadata then Err(TOKEN_UNDEFINED)
    else if key !in s.ledger then Err(MissingKey)
    else Ok(s.ledger[key])
  }

  /** The `count_tokens` view. */
  function CountTokens(s: Storage): nat
  {
    s.allTokens
  }

  /** The `does_token_exist` view. */
  predicate DoesTokenExist(s: Storage, tokenId: nat)
  {
    tokenId in s.tokenMetadata
  }

  /** The `all_tokens` view: the ids below the token count, not below `nextTokenId`. */
  function AllTokens(s: Storage): (r: seq<nat>)
    ensures |r| == s.allTokens
    ensures forall i :: 0 <= i < |r| ==> r[i] == i
  {
    Range(s.allTokens)
  }

  /** The `total_supply` view. */
  function TotalSupply(s: Storage, tokenId: nat): Result<nat, Error>
  {
    if tokenId in s.totalSupply then Ok(s.totalSupply[tokenId]) else Err(MissingKey)
  }

  /** The `is_operator` view. */
  predicate IsOperator(s: Storage, key: OperatorKey)
  {
    OperatorSet.IsMember(s.operators, key)
  }

  // ---------------------------------------------------------------------------
  // Token_id_set: a set of consecutive ids represented by its size.
  // `FA2_core` never calls it: `mint` increments `next_token_id` itself, so
  // the consecutiveness check below is not a guard on `mint`.

  /** `Token_id_set.add`: only the next consecutive id may be added. */
  function TokenIdSetAdd(totalTokens: nat, tokenId: nat): (r: Result<nat, Error>)
    ensures r.Ok? <==> tokenId == totalTokens
    ensures r.Ok? ==> TokenIdSetContains(r.value, tokenId)
    ensures r.Ok? ==> forall t :: TokenIdSetContains(r.value, t) <==> TokenIdSetContains(totalTokens, t) || t == tokenId
  {
    if totalTokens != tokenId then Err(TOKEN_IDS_NOT_CONSECUTIVE) else Ok(tokenId + 1)
  }

  /** `Token_id_set.contains`. */
  predicate TokenIdSetContains(totalTokens: nat, tokenId: nat)
  {
    tokenId < totalTokens
  }
}
