/**
 * The configuration manager: options, the static and dynamic snapshots,
 * the subscription table, and the reload that ties them together.
 */
module ConfigManager {
  import opened JsValues
  import opened Snapshots
  import opened Subscriptions

  /** `this._config`: the source file, the reload triggers, the hooks and the defaults. */
  datatype Options = Options(
    file: Option<string>,
    autoreload: nat,
    watchfile: bool,
    onReloadBegin: Hook,
    onReloadEnd: Hook,
    defaults: Snapshot)

  /** The object handed to `setup`: each option either given or absent. */
  datatype OptionsPatch = OptionsPatch(
    file: Option<string>,
    autoreload: Option<nat>,
    watchfile: Option<bool>,
    onReloadBegin: Option<Hook>,
    onReloadEnd: Option<Hook>,
    defaults: Option<Snapshot>)

  /** One option of `Object.assign`: the given value, else the current one. */
  function Pick<T>(given: Option<T>, current: T): (r: T)
    ensures given.Some? ==> r == given.value
    ensures given.None? ==> r == current
  {
    if given.Some? then given.value else current
  }

  /** `Object.assign(this._config, config)`: given options replace the current ones. */
  function Override(o: Options, p: OptionsPatch): (r: Options)
    ensures p.file.Some? ==> r.file == p.file
    ensures p.file.None? ==> r.file == o.file
    ensures p.autoreload.Some? ==> r.autoreload == p.autoreload.value
    ensures p.autoreload.None? ==> r.autoreload == o.autoreload
    ensures p.watchfile.Some? ==> r.watchfile == p.watchfile.value
    ensures p.watchfile.None? ==> r.watchfile == o.watchfile
    ensures p.onReloadBegin.Some? ==> r.onReloadBegin == p.onReloadBegin.value
    ensures p.onReloadBegin.None? ==> r.onReloadBegin == o.onReloadBegin
    ensures p.onReloadEnd.Some? ==> r.onReloadEnd == p.onReloadEnd.value
    ensures p.onReloadEnd.None? ==> r.onReloadEnd == o.onReloadEnd
    ensures p.defaults.Some? ==> r.defaults == p.defaults.value
    ensures p.defaults.None? ==> r.defaults == o.defaults
  {
    Options(
      if p.file.Some? then p.file else o.file,
      Pick(p.autoreload, o.autoreload),
      Pick(p.watchfile, o.watchfile),
      Pick(p.onReloadBegin, o.onReloadBegin),
      Pick(p.onReloadEnd, o.onReloadEnd),
      Pick(p.defaults, o.defaults))
  }

  datatype Error =
    | CannotLoadConfigFile   // `Error('Cannot load config file')`
    | ModuleNotFound         // the error `require` raises for a missing file
    | CallbackNotAFunction   // `Error('Callback is not a function')`
    | ConfigNotLoaded        // `Error('Config not loaded')`

  /** How a call that returns nothing ends: normally, or by raising. */
  datatype Outcome = Done | Raised(error: Error)

  datatype Result<T> = Ok(value: T) | Err(error: Error)

  /** The `handler` a subscriber passes: a function or any other value. */
  datatype HandlerArg = Function(fn: Handler) | NotAFunction

  /**
   * The argument of `subscribe`: a bare value (wrapped as `{handler}`), or an
   * options object whose `id`, `init_call` and `watch` may each be absent.
   */
  datatype SubscribeArg =
    | Bare(handler: HandlerArg)
    | Spec(handler: HandlerArg, id: Option<Id>, initCall: Option<bool>, watch: Option<Watch>)
  {
    /** The id to register under: the given one, else the generated one. */
    function IdOr(generated: Id): (r: Id)
    {
      if Spec? && id.Some? then id.value else generated
    }

    /** The filter to register: the given one, else `'*'`. */
    function WatchOrAll(): (w: Watch)
    {
      if Spec? && watch.Some? then watch.value else Text("*")
    }

    /** `init_call` defaults to true. */
    predicate CallsNow()
    {
      !(Spec? && initCall == Some(false))
    }
  }

  /**
   * The notification walk of a reload: for each registered subscription in
   * order, call its handler with `(newConfig, oldConfig)` if it fires.
   * Returns the calls made.
   */
  method NotifyAll(order: seq<Id>, subs: map<Id, Subscription>, newConfig: Snapshot, oldConfig: Snapshot)
    returns (fired: seq<Call>)
    requires forall id :: id in order ==> id in subs
    ensures fired == FiredCalls(order, subs, newConfig, oldConfig)
  {
    fired := [];
    var i := 0;
    while i < |order|
      invariant 0 <= i <= |order|
      invariant fired == FiredCalls(order[..i], subs, newConfig, oldConfig)
    {
      var id := order[i];
      var sub := subs[id];
      var fire := Fires(sub.watch, oldConfig, newConfig);
      if fire {
        fired := fired + [ReloadCall(id, sub.handler, newConfig, oldConfig)];
      }
      FiredCallsStep(order, i, subs, newConfig, oldConfig);
      i := i + 1;
    }
    assert order[..|order|] == order;
  }

  class Config {
    var options: Options
    // filled on the first successful reload, on top of the seeded defaults
    var staticConfig: Snapshot
    // replaced on every successful reload
    var dynamicConfig: Snapshot
    // the subscription table and its enumeration (registration) order
    var callbacks: map<Id, Subscription>
    var order: seq<Id>
    var initialized: bool
    // the running reload triggers: timer interval (0 when none) and file watch
    var timer: nat
    var watching: bool
    // every call made into user code, oldest first
    var calls: seq<Call>

    /**
     * The table lists each registered id exactly once, and every default key
     * is present in both snapshots.
     */
    ghost predicate Valid()
      reads this
    {
      && Distinct(order)
      && (forall id :: id in callbacks <==> id in order)
      && options.defaults.Keys <= staticConfig.Keys
      && options.defaults.Keys <= dynamicConfig.Keys
    }

    constructor ()
      ensures Valid()
      ensures options == Options(None, 0, true, NoOp, NoOp, map[])
      ensures staticConfig == map[] && dynamicConfig == map[]
      ensures callbacks == map[] && order == []
      ensures !initialized && timer == 0 && !watching && calls == []
    {
      options := Options(None, 0, true, NoOp, NoOp, map[]);
      staticConfig := map[];
      dynamicConfig := map[];
      callbacks := map[];
      order := [];
      initialized := false;
      timer := 0;
      watching := false;
      calls := [];
    }

    /**
     * `setup(config, reload)`: merge the options, seed both snapshots with
     * the defaults they lack, restart the triggers the patch touches, then
     * reload from `source` when `reloadNow` holds.
     */
    method Setup(patch: OptionsPatch, reloadNow: bool, source: Option<Snapshot>) returns (r: Outcome)
      requires Valid()
      modifies this
      ensures Valid()
      ensures options == Override(old(options), patch)
      ensures timer == if patch.autoreload.Some? then patch.autoreload.value else old(timer)
      ensures watching == if patch.file.Some? || patch.watchfile.Some? then options.watchfile else old(watching)
      ensures callbacks == old(callbacks) && order == old(order)
      ensures !reloadNow ==>
        && r == Done
        && initialized == old(initialized)
        && staticConfig == SeedDefaults(options.defaults, old(staticConfig))
        && dynamicConfig == SeedDefaults(options.defaults, old(dynamicConfig))
        && calls == old(calls)
      ensures reloadNow && (options.file.None? || source.None?) ==>
        && r == Raised(if old(initialized) then ModuleNotFound else CannotLoadConfigFile)
        && initialized == old(initialized)
        && staticConfig == SeedDefaults(options.defaults, old(staticConfig))
        && dynamicConfig == SeedDefaults(options.defaults, old(dynamicConfig))
        && calls == old(calls) + [HookCall(options.onReloadBegin)]
      ensures reloadNow && options.file.Some? && source.Some? ==>
        var newConfig := Merge(options.defaults, source.value);
        var seededStatic := SeedDefaults(options.defaults, old(staticConfig));
        && r == Done
        && initialized
        && dynamicConfig == newConfig
        && staticConfig == (if old(initialized) then seededStatic else Assign(seededStatic, newConfig))
        && calls == old(calls) + [HookCall(options.onReloadBegin)]
                   + FiredCalls(order, callbacks, newConfig, SeedDefaults(options.defaults, old(dynamicConfig)))
                   + [HookCall(options.onReloadEnd)]
    {
      options := Override(options, patch);
      staticConfig := SeedDefaults(options.defaults, staticConfig);
      dynamicConfig := SeedDefaults(options.defaults, dynamicConfig);
      if patch.autoreload.Some? {
        // the old timer is cleared; a non-zero interval starts a new one
        timer := patch.autoreload.value;
      }
      if patch.file.Some? || patch.watchfile.Some? {
        // the old watch is closed; a new one starts if watching is on
        watching := options.watchfile;
      }
      r := Done;
      if reloadNow {
        r := Reload(source);
      }
    }

    /** `stop()`: close the file watch and clear the timer; nothing else changes. */
    method Stop()
      requires Valid()
      modifies this
      ensures Valid()
      ensures !watching && timer == 0
      ensures options == old(options) && initialized == old(initialized)
      ensures staticConfig == old(staticConfig) && dynamicConfig == old(dynamicConfig)
      ensures callbacks == old(callbacks) && order == old(order) && calls == old(calls)
    {
      watching := false;
      timer := 0;
    }

    /**
     * `reload()`, with what the configured file exports given as `source`
     * (`None` when the file cannot be resolved). With no file configured,
     * `require.resolve(undefined)` fails whatever `source` says. A failed
     * read raises, before the first load with
     * its own error and afterwards with the one `require` raises, and in both
     * cases leaves the snapshots as they were. A successful read makes the
     * dynamic snapshot exactly the defaults overridden by the source, fills
     * the static snapshot on the first load only, and calls the handlers of
     * the subscriptions that fire, in registration order.
     */
    method Reload(source: Option<Snapshot>) returns (r: Outcome)
      requires Valid()
      modifies this
      ensures Valid()
      ensures options == old(options) && callbacks == old(callbacks) && order == old(order)
      ensures timer == old(timer) && watching == old(watching)
      ensures options.file.None? || source.None? ==>
        && r == Raised(if old(initialized) then ModuleNotFound else CannotLoadConfigFile)
        && initialized == old(initialized)
        && staticConfig == old(staticConfig) && dynamicConfig == old(dynamicConfig)
        && calls == old(calls) + [HookCall(options.onReloadBegin)]
      ensures options.file.Some? && source.Some? ==>
        var newConfig := Merge(options.defaults, source.value);
        && r == Done
        && initialized
        && dynamicConfig == newConfig
        && staticConfig == (if old(initialized) then old(staticConfig) else Assign(old(staticConfig), newConfig))
        && calls == old(calls) + [HookCall(options.onReloadBegin)]
                   + FiredCalls(order, callbacks, newConfig, old(dynamicConfig))
                   + [HookCall(options.onReloadEnd)]
    {
      calls := calls + [HookCall(options.onReloadBegin)];
      if options.file.None? || source.None? {
        // no file configured, or one that does not resolve: before the first
        // load the failed resolve is fatal; after it the `require` that
        // follows fails the same way, before anything is cleared
        r := Raised(if initialized then ModuleNotFound else CannotLoadConfigFile);
        return;
      }
      var oldConfig := dynamicConfig;
      var newConfig := Merge(options.defaults, source.value);

      ClearDynamic();

      if !initialized {
        initialized := true;
        staticConfig := Assign(staticConfig, newConfig);
      }
      AssignOntoEmpty(newConfig);
      dynamicConfig := Assign(dynamicConfig, newConfig);
      assert options.defaults.Keys <= dynamicConfig.Keys;

      var fired := NotifyAll(order, callbacks, newConfig, oldConfig);
      calls := calls + fired;
      calls := calls + [HookCall(options.onReloadEnd)];
      r := Done;
    }

    /** Delete every key of the dynamic snapshot, one at a time. */
    method ClearDynamic()
      modifies this`dynamicConfig
      ensures dynamicConfig == map[]
    {
      var stale := dynamicConfig.Keys;
      while stale != {}
        invariant dynamicConfig.Keys == stale
        decreases stale
      {
        var k :| k in stale;
        dynamicConfig := dynamicConfig - {k};
        stale := stale - {k};
      }
    }

    /**
     * `subscribe(callback)`: a handler that is not a function raises before
     * anything is registered. Otherwise the subscription is stored under its
     * id, replacing any entry with that id in place, and unless `init_call`
     * is false the handler is called once with `(dynamicConfig, null)`.
     */
    method Subscribe(arg: SubscribeArg, generatedId: Id) returns (r: Outcome)
      requires Valid()
      modifies this
      ensures Valid()
      ensures options == old(options) && initialized == old(initialized)
      ensures staticConfig == old(staticConfig) && dynamicConfig == old(dynamicConfig)
      ensures timer == old(timer) && watching == old(watching)
      ensures arg.handler.NotAFunction? ==>
        && r == Raised(CallbackNotAFunction)
        && callbacks == old(callbacks) && order == old(order) && calls == old(calls)
      ensures arg.handler.Function? ==>
        var id := arg.IdOr(generatedId);
        && r == Done
        && callbacks == old(callbacks)[id := Subscription(arg.handler.fn, arg.WatchOrAll())]
        && order == (if id in old(callbacks) then old(order) else old(order) + [id])
        && calls == old(calls) + if arg.CallsNow() then [InitialCall(arg.handler.fn, dynamicConfig)] else []
    {
      if arg.handler.NotAFunction? {
        return Raised(CallbackNotAFunction);
      }
      var id := arg.IdOr(generatedId);
      var fn := arg.handler.fn;
      if id !in callbacks {
        order := order + [id];
      }
      callbacks := callbacks[id := Subscription(fn, arg.WatchOrAll())];
      if arg.CallsNow() {
        calls := calls + [InitialCall(fn, dynamicConfig)];
      }
      r := Done;
    }

    /** `unsubscribe(id)`: remove that id's entry; every other entry stays as it was. */
    method Unsubscribe(id: Id)
      requires Valid()
      modifies this
      ensures Valid()
      ensures callbacks == old(callbacks) - {id}
      ensures order == Without(old(order), id)
      ensures options == old(options) && initialized == old(initialized)
      ensures staticConfig == old(staticConfig) && dynamicConfig == old(dynamicConfig)
      ensures timer == old(timer) && watching == old(watching) && calls == old(calls)
    {
      WithoutKeepsDistinct(order, id);
      callbacks := callbacks - {id};
      order := Without(order, id);
    }

    /** `loaded`: whether a reload has ever succeeded. */
    function Loaded(): (r: bool)
      reads this
      ensures r <==> initialized
    {
      initialized
    }

    /** `dynamicConfig`: the live snapshot, or `'Config not loaded'` before the first load. */
    function DynamicConfig(): (r: Result<Snapshot>)
      reads this
      ensures r.Ok? <==> initialized
      ensures r.Ok? ==> r.value == dynamicConfig
      ensures r.Err? ==> r.error == ConfigNotLoaded
    {
      if !initialized then Err(ConfigNotLoaded) else Ok(dynamicConfig)
    }

    /** `staticConfig`: the first-load snapshot, or `'Config not loaded'` before it. */
    function StaticConfig(): (r: Result<Snapshot>)
      reads this
      ensures r.Ok? <==> initialized
      ensures r.Ok? ==> r.value == staticConfig
      ensures r.Err? ==> r.error == ConfigNotLoaded
    {
      if !initialized then Err(ConfigNotLoaded) else Ok(staticConfig)
    }

    /** `d`: the same as `dynamicConfig`. */
    function D(): (r: Result<Snapshot>)
      reads this
      ensures r == DynamicConfig()
    {
      DynamicConfig()
    }

    /** `s`: the same as `staticConfig`. */
    function S(): (r: Result<Snapshot>)
      reads this
      ensures r == StaticConfig()
    {
      StaticConfig()
    }

    /** `toString()`: the configured file, `undefined` until one is set. */
    function ToString(): (r: Option<string>)
      reads this
      ensures r == options.file
    {
      options.file
    }
  }
}
