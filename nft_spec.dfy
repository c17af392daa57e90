/**
 * The 1/1 NFT ledger (`Fa2NftMint`): every token id has at most one unit,
 * so the ledger maps a token id to its owner. The storage is a value of
 * `Storage`; each entrypoint is a function from the storage before a call
 * to the storage after it, or to the error that aborts the call (the host
 * then keeps the storage as it was). Unlike the editions ledger there is
 * no reentrancy lock.
 */
module NftSpec {
  import opened Fa2Types
  import OperatorSet

  /** The module-level constant `mint` compares the sender with. */
  const ADMIN_ADDRESS: Address := "tz1ADDRESS"

  const UNDEFINED_FOR_TRANSFER: Error := Failwith("This Token is Undefined for Transfer")
  const NOT_OWNER_OR_OPERATOR: Error := Failwith("You are not the Owner or Operator of this Token")
  const TRANSFER_MORE_THAN_OWNED: Error := Failwith("You cannot Transfer more Tokens than you Own")
  const NOT_OWNER_OF_TOKEN: Error := Failwith("You are not the Owner of this Token")
  const UNDEFINED_BALANCE: Error := Failwith("This Token has Undefined Balance")
  const ONLY_COLLECTOR_OWNER: Error := Failwith("Only the Collector Owner can Mint Tokens")
  const BURN_UNDEFINED: Error := Failwith("Non-existand Token cannot be Burnt")
  const NOT_OWNER_CANNOT_BURN: Error := Failwith("You are not the Owner and cannot Burn this Token")
  const UNDEFINED_OFFCHAIN_BALANCE: Error := Failwith("This Token has Undefined Offchain Balance")
  const UNDEFINED_COLLECTION_BALANCE: Error := Failwith("This Collection has Undefined Balance")

  /** The contract's storage, field for field (the contract-level metadata left out). */
  datatype Storage = Storage(
    ledger: map<nat, Address>,
    admin: Address,
    nextTokenId: nat,
    operators: set<OperatorKey>,
    tokenMetadata: map<nat, TokenMetadata>,
    children: set<Address>,
    parents: set<Address>)

  /** The storage of a contract originated with administrator `admin`. */
  function Init(admin: Address): Storage
  {
    Storage(map[], admin, 0, {}, map[], {}, {})
  }

  /**
   * What holds between two calls: the ids with an owner are exactly the ids
   * with metadata, each metadata record carries its own id, and every such
   * id was handed out by `mint` (it is below `nextTokenId`).
   */
  ghost predicate Inv(s: Storage)
  {
    && s.ledger.Keys == s.tokenMetadata.Keys
    && (forall t :: t in s.tokenMetadata ==> s.tokenMetadata[t].tokenId == t)
    && (forall t :: t in s.ledger ==> t < s.nextTokenId)
  }

  // ---------------------------------------------------------------------------
  // mint

  /**
   * `mint`: the next id, owned by `to`. Only the address of the module
   * constant may mint, whatever administrator the storage was originated with.
   */
  function Mint(s: Storage, sender: Address, to: Address, metadata: TokenInfo): Result<Storage, Error>
  {
    if sender != ADMIN_ADDRESS then Err(ONLY_COLLECTOR_OWNER)
    else
      var tokenId := s.nextTokenId;
      Ok(s.(tokenMetadata := s.tokenMetadata[tokenId := TokenMetadata(tokenId, metadata)],
            ledger := s.ledger[tokenId := to],
            nextTokenId := tokenId + 1))
  }

  // ---------------------------------------------------------------------------
  // transfer

  predicate MayTransfer(s: Storage, sender: Address, from: Address, tokenId: nat)
  {
    from == sender || OperatorSet.IsMember(s.operators, OperatorKey(from, sender, tokenId))
  }

  /**
   * One tx. The ownership check is a short-circuit conjunction: an amount
   * other than 1 is refused before the ledger is read, and an amount of 1
   * for an id whose entry was burned aborts on the missing entry.
   */
  function TransferTx(s: Storage, sender: Address, from: Address, tx: Tx): Result<Storage, Error>
  {
    if tx.tokenId >= s.nextTokenId then Err(UNDEFINED_FOR_TRANSFER)
    else if !MayTransfer(s, sender, from, tx.tokenId) then Err(NOT_OWNER_OR_OPERATOR)
    else if tx.amount == 0 then Ok(s)
    else if tx.amount != 1 then Err(TRANSFER_MORE_THAN_OWNED)
    else if tx.tokenId !in s.ledger then Err(MissingKey)
    else if s.ledger[tx.tokenId] != from then Err(TRANSFER_MORE_THAN_OWNED)
    else Ok(s.(ledger := s.ledger[tx.tokenId := tx.to]))
  }

  function ApplyTxs(s: Storage, sender: Address, from: Address, txs: seq<Tx>): Result<Storage, Error>
    decreases |txs|
  {
    if txs == [] then Ok(s)
    else
      match TransferTx(s, sender, from, txs[0])
      case Err(e) => Err(e)
      case Ok(s') => ApplyTxs(s', sender, from, txs[1..])
  }

  /** `transfer`: every tx of every group, in order; the first failure aborts the batch. */
  function Transfer(s: Storage, sender: Address, batch: seq<TransferGroup>): Result<Storage, Error>
    decreases |batch|
  {
    if batch == [] then Ok(s)
    else
      match ApplyTxs(s, sender, batch[0].from, batch[0].txs)
      case Err(e) => Err(e)
      case Ok(s') => Transfer(s', sender, batch[1..])
  }

  // ---------------------------------------------------------------------------
  // update_operators

  /** `only_owner`: the sender must be the current owner of `tokenId`. */
  function OnlyOwner(s: Storage, sender: Address, tokenId: nat): Result<(), Error>
  {
    if tokenId !in s.ledger then Err(MissingKey)
    else if sender != s.ledger[tokenId] then Err(NOT_OWNER_OF_TOKEN)
    else Ok(())
  }

  /**
   * One variant as the contract performs it: the sender must own the token
   * named in the key, but the key's `owner` field is not compared with anything.
   */
  function UpdateOperator(s: Storage, sender: Address, update: OperatorUpdate): Result<Storage, Error>
  {
    if OnlyOwner(s, sender, update.key.tokenId).Err? then Err(OnlyOwner(s, sender, update.key.tokenId).error)
    else Ok(s.(operators := OperatorSet.Apply(s.operators, update)))
  }

  /** `update_operators`, as the contract performs it. */
  function UpdateOperators(s: Storage, sender: Address, updates: seq<OperatorUpdate>): Result<Storage, Error>
    decreases |updates|
  {
    if updates == [] then Ok(s)
    else
      match UpdateOperator(s, sender, updates[0])
      case Err(e) => Err(e)
      case Ok(s') => UpdateOperators(s', sender, updates[1..])
  }

  /**
   * One variant as FA2 intends it: besides owning the token, the sender must
   * be the owner named in the key, so that nobody grants or revokes
   * permissions over another address's tokens.
   */
  function UpdateOperatorOwnKey(s: Storage, sender: Address, update: OperatorUpdate): Result<Storage, Error>
  {
    if OnlyOwner(s, sender, update.key.tokenId).Err? then Err(OnlyOwner(s, sender, update.key.tokenId).error)
    else if update.key.owner != sender then Err(NOT_OWNER_OF_TOKEN)
    else Ok(s.(operators := OperatorSet.Apply(s.operators, update)))
  }

  /** `update_operators` with the owner of every key checked. */
  function UpdateOperatorsOwnKeys(s: Storage, sender: Address, updates: seq<OperatorUpdate>): Result<Storage, Error>
    decreases |updates|
  {
    if updates == [] then Ok(s)
    else
      match UpdateOperatorOwnKey(s, sender, updates[0])
      case Err(e) => Err(e)
      case Ok(s') => UpdateOperatorsOwnKeys(s', sender, updates[1..])
  }

  // ---------------------------------------------------------------------------
  // burn

  /** `burn`: the owner deletes the token's ledger entry and its metadata; the id is not handed out again. */
  function Burn(s: Storage, sender: Address, tokenId: nat): Result<Storage, Error>
  {
    if tokenId >= s.nextTokenId then Err(BURN_UNDEFINED)
    else if tokenId !in s.ledger then Err(MissingKey)
    else if s.ledger[tokenId] != sender then Err(NOT_OWNER_CANNOT_BURN)
    else Ok(s.(ledger := s.ledger - {tokenId}, tokenMetadata := s.tokenMetadata - {tokenId}))
  }

  // ---------------------------------------------------------------------------
  // Admin-managed address sets

  datatype AddressList = Children | Parents
  {
    function Name(): string
    {
      match this
      case Children => "children"
      case Parents => "parents"
    }
  }

  function AddressSet(s: Storage, list: AddressList): set<Address>
  {
    match list
    case Children => s.children
    case Parents => s.parents
  }

  function WithAddressSet(s: Storage, list: AddressList, addresses: set<Address>): Storage
  {
    match list
    case Children => s.(children := addresses)
    case Parents => s.(parents := addresses)
  }

  function OnlyAdmin(add: bool, list: AddressList): Error
  {
    Failwith("Only the contract owner can " + (if add then "add " else "remove ") + list.Name())
  }

  /** `add_child`, `remove_child`, `add_parent`, `remove_parent`: checked against the stored administrator. */
  function UpdateAddressList(s: Storage, sender: Address, list: AddressList, add: bool, address: Address): Result<Storage, Error>
  {
    if sender != s.admin then Err(OnlyAdmin(add, list))
    else
      var current := AddressSet(s, list);
      Ok(WithAddressSet(s, list, if add then current + {address} else current - {address}))
  }

  // ---------------------------------------------------------------------------
  // balance_of and the views

  /** The balance one request reports: 1 for the owner of the token, 0 for anybody else. */
  function RequestBalance(s: Storage, request: BalanceRequest): Result<nat, Error>
  {
    if request.tokenId >= s.nextTokenId then Err(UNDEFINED_BALANCE)
    else if request.tokenId !in s.ledger then Err(MissingKey)
    else Ok(if s.ledger[request.tokenId] == request.owner then 1 else 0)
  }

  /** The response list `balance_of` sends to its callback: one response per request, in order. */
  function BalanceOf(s: Storage, requests: seq<BalanceRequest>): (r: Result<seq<BalanceResponse>, Error>)
    ensures r.Ok? <==> forall i :: 0 <= i < |requests| ==> RequestBalance(s, requests[i]).Ok?
    ensures r.Err? ==> exists i :: (0 <= i < |requests|
      && (forall j :: 0 <= j < i ==> RequestBalance(s, requests[j]).Ok?)
      && RequestBalance(s, requests[i]) == Err(r.error))
    ensures r.Ok? ==> |r.value| == |requests|
    ensures r.Ok? ==> forall i :: 0 <= i < |requests| ==>
      r.value[i] == BalanceResponse(requests[i], RequestBalance(s, requests[i]).value)
    decreases |requests|
  {
    if requests == [] then Ok([])
    else
      match RequestBalance(s, requests[0])
      case Err(e) => Err(e)
      case Ok(b) =>
        match BalanceOf(s, requests[1..])
        case Err(e) => Err(e)
        case Ok(rest) => Ok([BalanceResponse(requests[0], b)] + rest)
  }

  /** The `get_balance` view. */
  function GetBalance(s: Storage, owner: Address, tokenId: nat): Result<nat, Error>
  {
    if tokenId >= s.nextTokenId then Err(UNDEFINED_OFFCHAIN_BALANCE)
    else if tokenId !in s.ledger then Err(MissingKey)
    else Ok(if s.ledger[tokenId] == owner then 1 else 0)
  }

  /** The `total_supply` view: 1 for every id handed out, burned or not. */
  function TotalSupply(s: Storage, tokenId: nat): Result<nat, Error>
  {
    if tokenId >= s.nextTokenId then Err(UNDEFINED_COLLECTION_BALANCE) else Ok(1)
  }

  /** The `is_operator` view. */
  predicate IsOperator(s: Storage, key: OperatorKey)
  {
    OperatorSet.IsMember(s.operators, key)
  }

  /** The `all_tokens` view: the ids 0 up to `nextTokenId`, burned ones included. */
  function AllTokens(s: Storage): (r: seq<nat>)
    ensures |r| == s.nextTokenId
    ensures forall i :: 0 <= i < |r| ==> r[i] == i
  {
    Range(s.nextTokenId)
  }

  /** The `get_administrator` view answers the module constant, not the stored administrator. */
  function GetAdministrator(s: Storage): Address
  {
    ADMIN_ADDRESS
  }
}
