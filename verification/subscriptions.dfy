/**
 * Subscriptions: the `watch` filter, the rule that decides whether a
 * subscription fires on a reload, the calls a reload makes into user code,
 * and the registration order of the subscription table.
 */
module Subscriptions {
  import opened JsValues
  import opened Snapshots

  type Id = string

  /** Identity of a user function; what the function does is foreign code. */
  datatype Handler = Handler(ref: nat)

  /** A lifecycle hook: the default `() => {}` or a user function. */
  datatype Hook = NoOp | UserHook(ref: nat)

  /** The `watch` option: a string (`'*'` or any other) or an array of keys. */
  datatype Watch = Text(text: string) | Keys(keys: seq<Key>)

  /** An entry of the subscription table: `{fun, watch}`. */
  datatype Subscription = Subscription(handler: Handler, watch: Watch)

  /** A call the manager makes into user code, recorded in the order made. */
  datatype Call =
    | HookCall(hook: Hook)
      // `handler(dynamicConfig, null)` when subscribing
    | InitialCall(handler: Handler, config: Snapshot)
      // `fun(newConfig, oldConfig)` during a reload
    | ReloadCall(id: Id, handler: Handler, newConfig: Snapshot, oldConfig: Snapshot)

  /**
   * The keys `for (const p of watch)` walks: the items of an array, or the
   * characters of a string, each as a one-character key.
   */
  function WatchedKeys(w: Watch): (r: seq<Key>)
  {
    match w
    case Keys(keys) => keys
    case Text(t) => seq(|t|, i requires 0 <= i < |t| => [t[i]])
  }

  /**
   * Whether a subscription's handler is called on a reload from `oldConfig`
   * to `newConfig`: always for the string `'*'`, otherwise when some watched
   * key's string form differs.
   */
  predicate ShouldFire(w: Watch, oldConfig: Snapshot, newConfig: Snapshot)
  {
    || w == Text("*")
    || exists i :: 0 <= i < |WatchedKeys(w)| && Changed(oldConfig, newConfig, WatchedKeys(w)[i])
  }

  /**
   * The per-subscription test of a reload: the `'*'` check, then the walk
   * over the watched keys that stops at the first changed one.
   */
  method Fires(w: Watch, oldConfig: Snapshot, newConfig: Snapshot) returns (fire: bool)
    ensures fire <==> ShouldFire(w, oldConfig, newConfig)
  {
    if w == Text("*") {
      return true;
    }
    var keys := WatchedKeys(w);
    fire := false;
    var i := 0;
    while i < |keys|
      invariant 0 <= i <= |keys|
      invariant !fire
      invariant forall j :: 0 <= j < i ==> !Changed(oldConfig, newConfig, keys[j])
    {
      if Changed(oldConfig, newConfig, keys[i]) {
        fire := true;
        break;
      }
      i := i + 1;
    }
  }

  /**
   * The handler calls a reload makes, walking the table in `order`: one call
   * per subscription that should fire, each passed `(newConfig, oldConfig)`.
   */
  function FiredCalls(order: seq<Id>, subs: map<Id, Subscription>, newConfig: Snapshot, oldConfig: Snapshot): (r: seq<Call>)
  {
    if order == [] then []
    else
      var n := |order| - 1;
      var id := order[n];
      FiredCalls(order[..n], subs, newConfig, oldConfig)
        + if id in subs && ShouldFire(subs[id].watch, oldConfig, newConfig)
          then [ReloadCall(id, subs[id].handler, newConfig, oldConfig)]
          else []
  }

  /**
   * A reload makes at most one call per walked id, and every call goes to a
   * walked, registered subscription that should fire, with that
   * subscription's handler and the arguments `(newConfig, oldConfig)`.
   */
  lemma {:induction false} FiredCallsShape(order: seq<Id>, subs: map<Id, Subscription>, newConfig: Snapshot, oldConfig: Snapshot)
    ensures |FiredCalls(order, subs, newConfig, oldConfig)| <= |order|
    ensures forall c :: c in FiredCalls(order, subs, newConfig, oldConfig) ==>
      && c.ReloadCall? && c.id in order && c.id in subs
      && c.handler == subs[c.id].handler
      && c.newConfig == newConfig && c.oldConfig == oldConfig
      && ShouldFire(subs[c.id].watch, oldConfig, newConfig)
  {
    if order != [] {
      var n := |order| - 1;
      FiredCallsShape(order[..n], subs, newConfig, oldConfig);
      forall c | c in FiredCalls(order[..n], subs, newConfig, oldConfig) ensures c.id in order {
        var j :| 0 <= j < n && order[..n][j] == c.id;
        assert order[j] == c.id;
      }
    }
  }

  /** Walking one more subscription appends at most its own call. */
  lemma FiredCallsStep(order: seq<Id>, i: nat, subs: map<Id, Subscription>, newConfig: Snapshot, oldConfig: Snapshot)
    requires i < |order|
    ensures FiredCalls(order[..i + 1], subs, newConfig, oldConfig)
         == FiredCalls(order[..i], subs, newConfig, oldConfig)
            + if order[i] in subs && ShouldFire(subs[order[i]].watch, oldConfig, newConfig)
              then [ReloadCall(order[i], subs[order[i]].handler, newConfig, oldConfig)]
              else []
  {
    assert order[..i + 1][..i] == order[..i];
  }

  /** How many reload calls in `calls` went to subscription `id`. */
  function CallsTo(calls: seq<Call>, id: Id): (r: nat)
  {
    if calls == [] then 0
    else
      var last := calls[|calls| - 1];
      CallsTo(calls[..|calls| - 1], id) + if last.ReloadCall? && last.id == id then 1 else 0
  }

  lemma {:induction false} CallsToAppend(a: seq<Call>, b: seq<Call>, id: Id)
    ensures CallsTo(a + b, id) == CallsTo(a, id) + CallsTo(b, id)
  {
    if b != [] {
      var n := |b| - 1;
      assert (a + b)[..|a + b| - 1] == a + b[..n];
      CallsToAppend(a, b[..n], id);
    } else {
      assert a + b == a;
    }
  }

  /**
   * The hooks around a reload are not reload calls: the trace of a reload
   * counts, for each id, exactly the calls its notification walk made.
   */
  lemma CallsToAroundHooks(before: seq<Call>, begin: Hook, fired: seq<Call>, end: Hook, id: Id)
    ensures CallsTo(before + [HookCall(begin)] + fired + [HookCall(end)], id)
         == CallsTo(before, id) + CallsTo(fired, id)
  {
    CallsToAppend(before, [HookCall(begin)], id);
    CallsToAppend(before + [HookCall(begin)], fired, id);
    CallsToAppend(before + [HookCall(begin)] + fired, [HookCall(end)], id);
    assert [HookCall(begin)][..0] == [] && [HookCall(end)][..0] == [];
  }

  predicate Distinct(s: seq<Id>)
  {
    forall i, j :: 0 <= i < j < |s| ==> s[i] != s[j]
  }

  /**
   * In a table whose ids are distinct, a reload calls each subscription's
   * handler exactly once when it should fire and not at all otherwise.
   */
  lemma {:induction false} FiresOnceOrNever(order: seq<Id>, subs: map<Id, Subscription>, newConfig: Snapshot, oldConfig: Snapshot, id: Id)
    requires Distinct(order)
    ensures CallsTo(FiredCalls(order, subs, newConfig, oldConfig), id)
         == if id in order && id in subs && ShouldFire(subs[id].watch, oldConfig, newConfig) then 1 else 0
  {
    if order != [] {
      var n := |order| - 1;
      var last := order[n];
      var tail :=
        if last in subs && ShouldFire(subs[last].watch, oldConfig, newConfig)
        then [ReloadCall(last, subs[last].handler, newConfig, oldConfig)]
        else [];
      assert Distinct(order[..n]);
      assert order[..n + 1] == order;
      FiredCallsStep(order, n, subs, newConfig, oldConfig);
      FiresOnceOrNever(order[..n], subs, newConfig, oldConfig, id);
      CallsToAppend(FiredCalls(order[..n], subs, newConfig, oldConfig), tail, id);
      assert tail == [] || tail[..0] == [];
      assert id in order <==> id in order[..n] || id == last by {
        assert order == order[..n] + [last];
      }
      if id == last {
        assert id !in order[..n];
      }
    }
  }

  /** A `'*'` subscription fires on every reload. */
  lemma StarAlwaysFires(oldConfig: Snapshot, newConfig: Snapshot)
    ensures ShouldFire(Text("*"), oldConfig, newConfig)
  {
  }

  /**
   * A reload that changes nothing fires exactly the `'*'` subscriptions;
   * in particular the array `['*']` is not a wildcard.
   */
  lemma UnchangedConfigFiresOnlyStar(w: Watch, config: Snapshot)
    ensures ShouldFire(w, config, config) <==> w == Text("*")
  {
  }

  /** Changes to keys a subscription does not watch never fire it. */
  lemma UnwatchedChangesIgnored(w: Watch, oldConfig: Snapshot, newConfig: Snapshot)
    requires w != Text("*")
    requires forall k :: k in WatchedKeys(w) ==> Lookup(oldConfig, k) == Lookup(newConfig, k)
    ensures !ShouldFire(w, oldConfig, newConfig)
  {
  }

  /**
   * A watch string other than `'*'` is walked character by character: it
   * watches the one-character keys it spells.
   */
  lemma TextWatchWalksCharacters(t: string, oldConfig: Snapshot, newConfig: Snapshot)
    requires t != "*"
    ensures ShouldFire(Text(t), oldConfig, newConfig)
        <==> exists i :: 0 <= i < |t| && Changed(oldConfig, newConfig, [t[i]])
  {
    var keys := WatchedKeys(Text(t));
    assert forall i :: 0 <= i < |t| ==> keys[i] == [t[i]];
  }

  /**
   * The registration order after `delete table[id]`: every id but `id`
   * stays, and nothing else appears.
   */
  function Without(order: seq<Id>, id: Id): (r: seq<Id>)
    ensures forall x :: x in r <==> x in order && x != id
  {
    if order == [] then []
    else
      var rest := Without(order[1..], id);
      assert forall x :: x in order <==> x == order[0] || x in order[1..];
      if order[0] == id then rest else [order[0]] + rest
  }

  /** Deleting an id that is not registered leaves the order as it is. */
  lemma {:induction false} WithoutAbsent(order: seq<Id>, id: Id)
    requires id !in order
    ensures Without(order, id) == order
  {
    if order != [] {
      assert id !in order[1..];
      WithoutAbsent(order[1..], id);
      assert order == [order[0]] + order[1..];
    }
  }

  /**
   * In a table with distinct ids, deleting the id at position `i` takes out
   * exactly that slot: every other id keeps its relative place.
   */
  lemma {:induction false} WithoutSplices(order: seq<Id>, id: Id, i: nat)
    requires Distinct(order)
    requires i < |order| && order[i] == id
    ensures Without(order, id) == order[..i] + order[i + 1..]
  {
    if i == 0 {
      assert id !in order[1..];
      WithoutAbsent(order[1..], id);
    } else {
      assert order[0] != id;
      assert Distinct(order[1..]);
      WithoutSplices(order[1..], id, i - 1);
      assert order[..i] == [order[0]] + order[1..][..i - 1];
      assert order[i + 1..] == order[1..][i..];
    }
  }

  /** Deleting an id keeps the registered ids distinct. */
  lemma WithoutKeepsDistinct(order: seq<Id>, id: Id)
    requires Distinct(order)
    ensures Distinct(Without(order, id))
  {
    if id in order {
      var i :| 0 <= i < |order| && order[i] == id;
      WithoutSplices(order, id, i);
      var r := Without(order, id);
      forall p, q | 0 <= p < q < |r| ensures r[p] != r[q] {
        var p' := if p < i then p else p + 1;
        var q' := if q < i then q else q + 1;
        assert r[p] == order[p'] && r[q] == order[q'];
      }
    } else {
      WithoutAbsent(order, id);
    }
  }
}
