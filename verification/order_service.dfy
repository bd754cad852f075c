/**
 * The request builders of src/services/order.service.ts that decide
 * something: the conditional parameters of `filterOrders` and the
 * parameters of `updateOrderStatus`.
 */
module OrderService {
  import opened Wrappers
  import opened Seqs
  import opened Http

  /** One `[key, value]` of `Object.entries(params)`; `None` is an absent optional field. */
  type Entry = (string, Option<string>)

  /** `if (value)`: present and non-empty. */
  predicate IsSet(e: Entry)
  {
    e.1.Some? && e.1.value != ""
  }

  function Pair(e: Entry): (string, string)
  {
    (e.0, if e.1.Some? then e.1.value else "")
  }

  function Unwrapped(es: seq<Entry>): (q: Params)
    ensures |q| == |es| && forall k :: 0 <= k < |es| ==> q[k] == Pair(es[k])
  {
    seq(|es|, k requires 0 <= k < |es| => Pair(es[k]))
  }

  lemma UnwrappedAppend(a: seq<Entry>, b: seq<Entry>)
    ensures Unwrapped(a + b) == Unwrapped(a) + Unwrapped(b)
  {
  }

  /** The query `filterOrders` builds: the set entries, in entry order. */
  function FilterQuery(entries: seq<Entry>): (q: Params)
    ensures |q| <= |entries|
    ensures forall k :: 0 <= k < |q| ==> q[k].1 != "" && (q[k].0, Some(q[k].1)) in entries
  {
    var kept := Filter(entries, IsSet);
    assert forall k :: 0 <= k < |kept| ==> kept[k] in kept;
    Unwrapped(kept)
  }

  /** `filterOrders`: append every set entry, then ask `/orders/filter`. */
  method FilterOrders(entries: seq<Entry>) returns (req: Request)
    ensures req == Request(Get, "/orders/filter", FilterQuery(entries), None)
  {
    var query: Params := [];
    var i := 0;
    while i < |entries|
      invariant 0 <= i <= |entries|
      invariant query == FilterQuery(entries[..i])
    {
      var (key, value) := entries[i];
      assert entries[..i + 1] == entries[..i] + [entries[i]];
      FilterSnoc(entries[..i], entries[i], IsSet);
      UnwrappedAppend(Filter(entries[..i], IsSet), if IsSet(entries[i]) then [entries[i]] else []);
      if value.Some? && value.value != "" {
        query := query + [(key, value.value)];
      }
      i := i + 1;
    }
    assert entries[..|entries|] == entries;
    req := Request(Get, "/orders/filter", query, None);
  }

  /** A parameter is sent exactly when its entry is present with that non-empty value. */
  lemma FilterQueryIff(entries: seq<Entry>, key: string, value: string)
    ensures (key, value) in FilterQuery(entries) <==> (key, Some(value)) in entries && value != ""
  {
    var f := Filter(entries, IsSet);
    var q := FilterQuery(entries);
    if (key, value) in q {
      var k :| 0 <= k < |q| && q[k] == (key, value);
      assert f[k] in f;
    }
    if (key, Some(value)) in entries && value != "" {
      var e: Entry := (key, Some(value));
      assert e in f;
      var k :| 0 <= k < |f| && f[k] == e;
      assert q[k] == (key, value);
    }
  }

  /** The parameters come in the order of the entries they came from. */
  lemma FilterQueryKeepsEntryOrder(entries: seq<Entry>) returns (idx: seq<nat>)
    ensures |idx| == |FilterQuery(entries)|
    ensures forall k :: 0 <= k < |idx| ==>
      idx[k] < |entries| && IsSet(entries[idx[k]]) && FilterQuery(entries)[k] == Pair(entries[idx[k]])
    ensures forall k, l :: 0 <= k < l < |idx| ==> idx[k] < idx[l]
  {
    idx := FilterPreservesOrder(entries, IsSet);
  }

  /** The keys of an object are distinct, so each set parameter is sent exactly once. */
  lemma FilterQueryKeysOnce(entries: seq<Entry>)
    requires forall i, j :: 0 <= i < j < |entries| ==> entries[i].0 != entries[j].0
    ensures var q := FilterQuery(entries); forall k, l :: 0 <= k < l < |q| ==> q[k].0 != q[l].0
  {
    var idx := FilterQueryKeepsEntryOrder(entries);
  }

  /** `updateOrderStatus`: the status travels both in the query and in the body. */
  function UpdateOrderStatus(orderId: string, status: string): (r: Request)
    ensures r.verb == Put && r.path == "/orders/" + orderId + "/status"
    ensures Keys(r.query) == ["status"] && r.body.Some? && Keys(r.body.value) == ["status"]
    ensures Lookup(r.query, "status") == Lookup(r.body.value, "status") == Some(status)
  {
    Request(Put, "/orders/" + orderId + "/status", [("status", status)], Some([("status", status)]))
  }
}
