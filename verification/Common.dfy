/** Identities and counters shared by the models of the relay client. */
module Common {

  datatype Option<+T> = None | Some(value: T)

  /** The largest integer the client counts to: Number.MAX_SAFE_INTEGER. */
  const MAX_SAFE_INTEGER: nat := 9007199254740991

  /** The next value of a counter, or None once it is exhausted or was never a sequence. */
  function NextCounter(value: int): (next: Option<int>)
    ensures next.Some? <==> 0 <= value < MAX_SAFE_INTEGER
    ensures next.Some? ==> value < next.value <= MAX_SAFE_INTEGER
  {
    if value < 0 || value >= MAX_SAFE_INTEGER then None else Some(value + 1)
  }

  datatype RunRef = RunRef(serverId: string, relayInstanceId: string, runId: string)

  datatype ConnectionRef = ConnectionRef(connectionId: string, generation: nat)

  datatype SubscriptionRef = SubscriptionRef(
    run: RunRef,
    connection: ConnectionRef,
    subscriptionId: string,
    viewId: string)

  /** Who holds control of a terminal, as a control fact or a baseline names it. */
  datatype Holder = Holder(connection: ConnectionRef, viewId: string, subscriptionId: string)

  function HolderOf(ref: SubscriptionRef): Holder {
    Holder(ref.connection, ref.viewId, ref.subscriptionId)
  }

  // ---- Totals over a sequence ----

  function Sum<T>(xs: seq<T>, f: T -> nat): nat {
    if xs == [] then 0
    else Sum(xs[..|xs| - 1], f) + f(xs[|xs| - 1])
  }

  lemma {:induction false} SumUpdate<T>(xs: seq<T>, i: nat, x: T, f: T -> nat)
    requires i < |xs|
    ensures Sum(xs[i := x], f) == Sum(xs, f) - f(xs[i]) + f(x)
  {
    var n := |xs| - 1;
    if i == n {
      assert xs[i := x][..n] == xs[..n];
    } else {
      SumUpdate(xs[..n], i, x, f);
      assert xs[i := x][..n] == xs[..n][i := x];
    }
  }

  lemma SumAppend<T>(xs: seq<T>, x: T, f: T -> nat)
    ensures Sum(xs + [x], f) == Sum(xs, f) + f(x)
  {
    assert (xs + [x])[..|xs|] == xs;
  }

  // ---- Sizes of maps ----

  lemma PutSize<K, V>(m: map<K, V>, k: K, v: V)
    ensures |m[k := v]| == |m| + if k in m then 0 else 1
  {
    if k in m {
      assert m[k := v].Keys == m.Keys;
    } else {
      assert m[k := v].Keys == m.Keys + {k};
    }
  }

  lemma RemoveSize<K, V>(m: map<K, V>, k: K)
    ensures |m - {k}| == |m| - if k in m then 1 else 0
  {
    if k in m {
      assert m.Keys == (m - {k}).Keys + {k};
    } else {
      assert m - {k} == m;
    }
  }
}
