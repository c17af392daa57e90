/**
 * The operator capability set of both ledgers: a big-map from operator keys
 * to unit, so a set of keys. `Add`, `Remove` and `IsMember` are the editions
 * ledger's `Operator_set` helper; the NFT ledger writes the same updates
 * inline in `update_operators`.
 */
module OperatorSet {
  import opened Fa2Types

  function Add(ops: set<OperatorKey>, key: OperatorKey): (r: set<OperatorKey>)
    ensures IsMember(r, key)
    ensures forall k :: k != key ==> (IsMember(r, k) <==> IsMember(ops, k))
  {
    ops + {key}
  }

  /** Deleting an absent key from a big-map is not an error. */
  function Remove(ops: set<OperatorKey>, key: OperatorKey): (r: set<OperatorKey>)
    ensures !IsMember(r, key)
    ensures forall k :: k != key ==> (IsMember(r, k) <==> IsMember(ops, k))
  {
    ops - {key}
  }

  predicate IsMember(ops: set<OperatorKey>, key: OperatorKey)
  {
    key in ops
  }

  /** The effect of one `add_operator` / `remove_operator` variant once it is authorised. */
  function Apply(ops: set<OperatorKey>, update: OperatorUpdate): (r: set<OperatorKey>)
    ensures IsMember(r, update.key) <==> update.AddOperator?
    ensures forall k :: k != update.key ==> (IsMember(r, k) <==> IsMember(ops, k))
  {
    match update
    case AddOperator(key) => Add(ops, key)
    case RemoveOperator(key) => Remove(ops, key)
  }

  /** The effect of a whole `update_operators` list once every variant is authorised, in list order. */
  function ApplyAll(ops: set<OperatorKey>, updates: seq<OperatorUpdate>): set<OperatorKey>
    decreases |updates|
  {
    if updates == [] then ops else ApplyAll(Apply(ops, updates[0]), updates[1..])
  }

  /** No variant of `updates` names `key`. */
  ghost predicate Untouched(updates: seq<OperatorUpdate>, key: OperatorKey)
  {
    forall i :: 0 <= i < |updates| ==> updates[i].key != key
  }

  /**
   * Declarative reading of a list of updates: `key` is granted afterwards
   * exactly when the last variant naming it is an add, or when no variant
   * names it and it was granted before.
   */
  ghost predicate GrantedAfter(ops: set<OperatorKey>, updates: seq<OperatorUpdate>, key: OperatorKey)
  {
    || (key in ops && Untouched(updates, key))
    || exists i :: 0 <= i < |updates| && updates[i] == AddOperator(key) && Untouched(updates[i + 1..], key)
  }

  /** Applying updates in order agrees with the declarative reading, for every key. */
  lemma {:induction false} ApplyAllGranted(ops: set<OperatorKey>, updates: seq<OperatorUpdate>, key: OperatorKey)
    ensures key in ApplyAll(ops, updates) <==> GrantedAfter(ops, updates, key)
    decreases |updates|
  {
    if updates != [] {
      var u, rest := updates[0], updates[1..];
      var ops' := Apply(ops, u);
      ApplyAllGranted(ops', rest, key);
      // Indices of `updates` are one more than those of `rest`.
      assert forall i :: 0 <= i < |rest| ==> rest[i] == updates[i + 1];
      if GrantedAfter(ops', rest, key) {
        if key in ops' && Untouched(rest, key) {
          if u.key == key {
            assert u == AddOperator(key) && updates[1..] == rest;
          } else {
            assert key in ops;
          }
        } else {
          var i :| 0 <= i < |rest| && rest[i] == AddOperator(key) && Untouched(rest[i + 1..], key);
          assert updates[i + 1] == AddOperator(key) && Untouched(updates[i + 2..], key);
        }
        assert GrantedAfter(ops, updates, key);
      }
      if GrantedAfter(ops, updates, key) {
        if key in ops && Untouched(updates, key) {
          assert u.key != key && Untouched(rest, key);
        } else {
          var i :| 0 <= i < |updates| && updates[i] == AddOperator(key) && Untouched(updates[i + 1..], key);
          if i == 0 {
            assert key in ops' && Untouched(rest, key);
          } else {
            assert rest[i - 1] == AddOperator(key) && Untouched(rest[i..], key);
          }
        }
        assert GrantedAfter(ops', rest, key);
      }
    }
  }
}
