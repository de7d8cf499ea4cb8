/** The draw and init callback queues: ordered, duplicate-free, append-only. */
module Registry {
  import opened Base

  /** An opaque callback, identified by its function address. */
  type Callback = nat

  predicate Distinct(q: seq<Callback>) {
    forall i, j :: 0 <= i < j < |q| ==> q[i] != q[j]
  }

  /** `addDrawFunc` / `addInitFunc`: a callback already queued is refused (the source aborts on
      its assertion, reported here as a failure carrying that callback); otherwise it goes at
      the end. */
  function Add(q: seq<Callback>, f: Callback): (r: Result<seq<Callback>, Callback>)
    ensures r.Success? <==> f !in q
    ensures r.Success? ==> |r.value| == |q| + 1 && r.value[..|q|] == q && r.value[|q|] == f
    ensures r.Failure? ==> r.error == f
    ensures Distinct(q) && r.Success? ==> Distinct(r.value)
  {
    if f in q then Failure(f) else Success(q + [f])
  }

  /** Registers `fs` one after another, stopping at the first refusal. */
  function AddAll(q: seq<Callback>, fs: seq<Callback>): Result<seq<Callback>, Callback>
    decreases |fs|
  {
    if |fs| == 0 then Success(q)
    else match Add(q, fs[0])
      case Failure(f) => Failure(f)
      case Success(q') => AddAll(q', fs[1..])
  }

  /** Starting from a duplicate-free queue, registering `fs` succeeds exactly when the result
      would still be duplicate-free, and then the queue is the old one followed by `fs` in
      registration order. */
  lemma {:induction false} AddAllOrder(q: seq<Callback>, fs: seq<Callback>)
    requires Distinct(q)
    ensures AddAll(q, fs).Success? <==> Distinct(q + fs)
    ensures AddAll(q, fs).Success? ==> AddAll(q, fs).value == q + fs
    decreases |fs|
  {
    if |fs| == 0 {
      assert q + fs == q;
    } else {
      var f := fs[0];
      assert q + fs == (q + [f]) + fs[1..];
      if f in q {
        var i :| 0 <= i < |q| && q[i] == f;
        assert (q + fs)[i] == (q + fs)[|q|];
      } else {
        var q' := q + [f];
        assert Distinct(q');
        AddAllOrder(q', fs[1..]);
      }
    }
  }
}
