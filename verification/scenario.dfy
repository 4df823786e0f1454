/**
 * A client of the manager that walks through a first load and one edit of
 * the source, using only the contracts of `Config`.
 */
module Scenario {
  import opened JsValues
  import opened Snapshots
  import opened Subscriptions
  import opened ConfigManager

  const Defaults: Snapshot := map["c" := Num(3)]
  const FirstSource: Snapshot := map["a" := Num(1), "b" := Num(2)]
  const EditedSource: Snapshot := map["a" := Num(10), "b" := Num(2)]
  const FirstLoad: Snapshot := map["a" := Num(1), "b" := Num(2), "c" := Num(3)]
  const EditedLoad: Snapshot := map["a" := Num(10), "b" := Num(2), "c" := Num(3)]

  lemma FirstMerge()
    ensures Merge(Defaults, FirstSource) == FirstLoad
  {
  }

  lemma StaticFirstFill()
    ensures SeedDefaults(Defaults, map[]) == Defaults
    ensures Assign(Defaults, FirstLoad) == FirstLoad
  {
  }

  lemma EditedMerge()
    ensures Merge(Defaults, EditedSource) == EditedLoad
  {
  }

  /** A new manager with two subscriptions, watching `a` and `b`, without an initial call. */
  method TwoSubscriptions() returns (config: Config)
    ensures fresh(config) && config.Valid()
    ensures config.options == Options(None, 0, true, NoOp, NoOp, map[])
    ensures !config.initialized && config.staticConfig == map[] && config.dynamicConfig == map[]
    ensures config.order == ["on-a", "on-b"] && config.calls == []
    ensures "on-a" in config.callbacks && config.callbacks["on-a"].watch == Keys(["a"])
    ensures "on-b" in config.callbacks && config.callbacks["on-b"].watch == Keys(["b"])
  {
    config := new Config();
    var r := config.Subscribe(Spec(Function(Handler(1)), Some("on-a"), Some(false), Some(Keys(["a"]))), "generated-1");
    assert config.order == ["on-a"] && config.callbacks.Keys == {"on-a"};
    assert "on-b" != "on-a";
    r := config.Subscribe(Spec(Function(Handler(2)), Some("on-b"), Some(false), Some(Keys(["b"]))), "generated-2");
    assert config.DynamicConfig().Err?;
  }

  /**
   * `setup` with defaults `{c: 3}` loads the source `{a: 1, b: 2}` into both
   * snapshots; coming from the seeded `{c: 3}`, both subscriptions fire once.
   */
  method FirstLoadWithTwoSubscriptions() returns (config: Config)
    ensures fresh(config) && config.Valid()
    ensures config.DynamicConfig() == Ok(FirstLoad) && config.StaticConfig() == Ok(FirstLoad)
    ensures config.options == Options(Some("/srv/app/settings.js"), 0, false, NoOp, NoOp, Defaults)
    ensures config.order == ["on-a", "on-b"]
    ensures "on-a" in config.callbacks && config.callbacks["on-a"].watch == Keys(["a"])
    ensures "on-b" in config.callbacks && config.callbacks["on-b"].watch == Keys(["b"])
    ensures CallsTo(config.calls, "on-a") == 1 && CallsTo(config.calls, "on-b") == 1
  {
    FirstMerge();
    StaticFirstFill();
    config := TwoSubscriptions();
    var patch := OptionsPatch(Some("/srv/app/settings.js"), None, Some(false), None, None, Some(Defaults));
    var r := config.Setup(patch, true, Some(FirstSource));
    var fired := FiredCalls(["on-a", "on-b"], config.callbacks, FirstLoad, Defaults);
    assert config.calls == [] + [HookCall(NoOp)] + fired + [HookCall(NoOp)];
    FirstLoadFiresBoth(config.callbacks);
    CallsToAroundHooks([], NoOp, fired, NoOp, "on-a");
    CallsToAroundHooks([], NoOp, fired, NoOp, "on-b");
  }

  /** Loading `{a: 1, b: 2}` over the seeded `{c: 3}` fires both subscriptions once. */
  lemma FirstLoadFiresBoth(subs: map<Id, Subscription>)
    requires "on-a" in subs && subs["on-a"].watch == Keys(["a"])
    requires "on-b" in subs && subs["on-b"].watch == Keys(["b"])
    ensures CallsTo(FiredCalls(["on-a", "on-b"], subs, FirstLoad, Defaults), "on-a") == 1
    ensures CallsTo(FiredCalls(["on-a", "on-b"], subs, FirstLoad, Defaults), "on-b") == 1
  {
    assert "on-a" != "on-b";
    assert ToStr(Num(1)) == "1" && ToStr(Num(2)) == "2" by {
      assert Decimal(1) == "1" && Decimal(2) == "2";
    }
    assert Changed(Defaults, FirstLoad, "a") && Changed(Defaults, FirstLoad, "b");
    assert WatchedKeys(Keys(["a"]))[0] == "a" && WatchedKeys(Keys(["b"]))[0] == "b";
    assert ShouldFire(subs["on-a"].watch, Defaults, FirstLoad);
    assert ShouldFire(subs["on-b"].watch, Defaults, FirstLoad);
    FiresOnceOrNever(["on-a", "on-b"], subs, FirstLoad, Defaults, "on-a");
    FiresOnceOrNever(["on-a", "on-b"], subs, FirstLoad, Defaults, "on-b");
  }

  /**
   * The source edited to `{a: 10, b: 2}`: the static snapshot keeps the
   * first load, the dynamic one follows the edit, and over both reloads the
   * subscription watching `a` has fired twice and the one watching `b` once.
   */
  method EditAfterFirstLoad() returns (config: Config)
    ensures config.Valid()
    ensures config.StaticConfig() == Ok(FirstLoad) && config.DynamicConfig() == Ok(EditedLoad)
    ensures CallsTo(config.calls, "on-a") == 2 && CallsTo(config.calls, "on-b") == 1
  {
    EditedMerge();
    config := FirstLoadWithTwoSubscriptions();
    var before := config.calls;
    var r := config.Reload(Some(EditedSource));
    var fired := FiredCalls(["on-a", "on-b"], config.callbacks, EditedLoad, FirstLoad);
    assert config.calls == before + [HookCall(NoOp)] + fired + [HookCall(NoOp)];
    EditFiresOnlyWatchedKey(config.callbacks);
    CallsToAroundHooks(before, NoOp, fired, NoOp, "on-a");
    CallsToAroundHooks(before, NoOp, fired, NoOp, "on-b");
  }

  /** The edit of `a` fires the subscription watching `a` once and not the one watching `b`. */
  lemma EditFiresOnlyWatchedKey(subs: map<Id, Subscription>)
    requires "on-a" in subs && subs["on-a"].watch == Keys(["a"])
    requires "on-b" in subs && subs["on-b"].watch == Keys(["b"])
    ensures CallsTo(FiredCalls(["on-a", "on-b"], subs, EditedLoad, FirstLoad), "on-a") == 1
    ensures CallsTo(FiredCalls(["on-a", "on-b"], subs, EditedLoad, FirstLoad), "on-b") == 0
  {
    assert "on-a" != "on-b";
    NumbersCompareByValue(FirstLoad, EditedLoad, "a", 1, 10);
    assert WatchedKeys(Keys(["a"]))[0] == "a";
    assert ShouldFire(subs["on-a"].watch, FirstLoad, EditedLoad);
    assert WatchedKeys(Keys(["b"])) == ["b"];
    assert Lookup(FirstLoad, "b") == Lookup(EditedLoad, "b");
    UnwatchedChangesIgnored(Keys(["b"]), FirstLoad, EditedLoad);
    FiresOnceOrNever(["on-a", "on-b"], subs, EditedLoad, FirstLoad, "on-a");
    FiresOnceOrNever(["on-a", "on-b"], subs, EditedLoad, FirstLoad, "on-b");
  }
}
