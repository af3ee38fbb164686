/** The round-robin balancer: a cursor over the key sequence of the worker-channel
    map. The map's key order is unspecified, so callers pass it in as `keys`. */
module LoadBalancer {
  import opened Common

  /** What one `select_worker` call returns, and the cursor it leaves. */
  datatype Selection = Selection(worker: Option<string>, cursor: nat)

  /** One `select_worker` call starting from `cursor`. */
  function Select(cursor: nat, keys: seq<string>): (r: Selection)
    ensures keys == [] ==> r == Selection(None, cursor)
    ensures keys != [] ==> 1 <= r.cursor <= |keys| && r.worker == Some(keys[r.cursor - 1])
    ensures keys != [] && cursor < |keys| ==> r.cursor == cursor + 1
    ensures keys != [] && cursor >= |keys| ==> r.cursor == 1
  {
    if keys == [] then Selection(None, cursor)
    else
      var c := if cursor >= |keys| then 0 else cursor;
      Selection(Some(keys[c]), c + 1)
  }

  /** The results of `k` successive calls over the same keys. */
  function Calls(cursor: nat, keys: seq<string>, k: nat): (r: seq<Option<string>>)
    ensures |r| == k
    decreases k
  {
    if k == 0 then []
    else
      var s := Select(cursor, keys);
      [s.worker] + Calls(s.cursor, keys, k - 1)
  }

  /** The cursor left after `k` successive calls. */
  function After(cursor: nat, keys: seq<string>, k: nat): nat
    decreases k
  {
    if k == 0 then cursor else After(Select(cursor, keys).cursor, keys, k - 1)
  }

  /** Calls made one batch after another are the calls made in one go. */
  lemma {:induction false} CallsSplit(cursor: nat, keys: seq<string>, a: nat, b: nat)
    ensures Calls(cursor, keys, a + b) == Calls(cursor, keys, a) + Calls(After(cursor, keys, a), keys, b)
    decreases a
  {
    if a > 0 {
      var next := Select(cursor, keys).cursor;
      CallsSplit(next, keys, a - 1, b);
      assert a + b - 1 == (a - 1) + b;
    }
  }

  /** While the cursor stays inside the keys, calls read them one after another
      and the cursor counts the calls. */
  lemma {:induction false} CallsInRange(cursor: nat, keys: seq<string>, k: nat)
    requires cursor + k <= |keys|
    ensures forall i :: 0 <= i < k ==> Calls(cursor, keys, k)[i] == Some(keys[cursor + i])
    ensures After(cursor, keys, k) == cursor + k
    decreases k
  {
    if k > 0 {
      var sel := Select(cursor, keys);
      assert sel == Selection(Some(keys[cursor]), cursor + 1);
      var rest := Calls(cursor + 1, keys, k - 1);
      assert Calls(cursor, keys, k) == [Some(keys[cursor])] + rest;
      CallsInRange(cursor + 1, keys, k - 1);
    }
  }

  /** A cursor at or past the end behaves as a fresh one. */
  lemma CallsWrap(cursor: nat, keys: seq<string>, k: nat)
    requires keys != [] && cursor >= |keys|
    ensures Calls(cursor, keys, k) == Calls(0, keys, k)
  {
    assert Select(cursor, keys) == Select(0, keys);
  }

  /** Fairness: from a fresh cursor, `n` calls over `n` keys return every key once,
      in sequence order, and call `n + 1` returns the first key again. */
  lemma RoundRobinFair(keys: seq<string>)
    requires keys != []
    ensures forall i :: 0 <= i < |keys| ==> Calls(0, keys, |keys| + 1)[i] == Some(keys[i])
    ensures Calls(0, keys, |keys| + 1)[|keys|] == Some(keys[0])
  {
    var n := |keys|;
    CallsSplit(0, keys, n, 1);
    CallsInRange(0, keys, n);
    CallsWrap(n, keys, 1);
    assert Calls(0, keys, n + 1) == Calls(0, keys, n) + Calls(0, keys, 1);
  }

  class RoundRobinBalancer {
    var currentWorker: nat

    constructor ()
      ensures currentWorker == 0
    {
      currentWorker := 0;
    }

    /** `select_worker`: advances the cursor over `keys`, the keys of the channel map. */
    method SelectWorker(keys: seq<string>) returns (key: Option<string>)
      modifies this
      ensures Selection(key, currentWorker) == Select(old(currentWorker), keys)
    {
      if |keys| == 0 {
        return None;
      }
      if currentWorker >= |keys| {
        currentWorker := 0;
      }
      key := Some(keys[currentWorker]);
      currentWorker := currentWorker + 1;
    }
  }
}
