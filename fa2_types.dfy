/**
 * Parameter and storage records shared by the two FA2 (TZIP-12) ledgers:
 * the transfer batch, the operator key, the balance request and response,
 * and the token metadata record. Their Michelson layouts carry no behaviour
 * and are not modelled.
 */
module Fa2Types {

  /** A Tezos address, as the string the contract compares. */
  type Address = string

  type Bytes = seq<bv8>

  /** The `token_info` map of a token's metadata; its contents are opaque here. */
  type TokenInfo = map<string, Bytes>

  /** What an entrypoint or view computes, or the error that aborts the call. */
  datatype Result<+T, +E> = Ok(value: T) | Err(error: E)

  /**
   * Why a call aborts. The host rolls back everything an aborted call did,
   * so an error always comes with the storage as it was before the call.
   */
  datatype Error =
    | Failwith(message: string)  // `sp.verify(condition, message)` with a false condition
    | MissingKey                 // reading a big-map entry that is absent
    | AsNatFailure               // `sp.as_nat` of a negative value

  /** One entry of the `token_metadata` big-map. */
  datatype TokenMetadata = TokenMetadata(tokenId: nat, tokenInfo: TokenInfo)

  /** A key of the `operators` big-map: `operator` may move `owner`'s units of `tokenId`. */
  datatype OperatorKey = OperatorKey(owner: Address, operator: Address, tokenId: nat)

  /** One variant of the `update_operators` parameter list. */
  datatype OperatorUpdate =
    | AddOperator(key: OperatorKey)
    | RemoveOperator(key: OperatorKey)

  /** One element of a transfer group's `txs`. */
  datatype Tx = Tx(to: Address, tokenId: nat, amount: nat)

  /** One element of the `transfer` batch: every tx moves units owned by `from`. */
  datatype TransferGroup = TransferGroup(from: Address, txs: seq<Tx>)

  datatype BalanceRequest = BalanceRequest(owner: Address, tokenId: nat)

  /** One element of the list `balance_of` sends to its callback. */
  datatype BalanceResponse = BalanceResponse(request: BalanceRequest, balance: nat)

  /** The ids 0 up to `n`, in order: what `sp.range(0, n)` produces. */
  function Range(n: nat): (r: seq<nat>)
    ensures |r| == n
    ensures forall i :: 0 <= i < n ==> r[i] == i
  {
    if n == 0 then [] else Range(n - 1) + [n - 1]
  }

  /**
   * What the host records for a call whose specified outcome is `expected`:
   * a successful call returns and leaves the new storage; an aborted call
   * returns the error and leaves the storage as it was before the call.
   */
  ghost predicate Recorded<S>(expected: Result<S, Error>, r: Result<(), Error>, before: S, after: S)
  {
    match expected
    case Ok(s) => r == Ok(()) && after == s
    case Err(e) => r == Err(e) && after == before
  }
}
