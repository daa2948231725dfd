/** `Application.ts`: the service container. It keeps the registered service providers, boots
    them once, and resolves services by key from cached instances, singleton factories and
    plain bindings, in that order. A factory (a closure in the source) is an opaque name here,
    and an instance is the result of one run of a factory, told apart by the run's serial
    number; `runs` lists the keys whose factory ran, in order. */
module Application {
  import opened Wrappers

  /** A factory closure, identified by name. */
  datatype Factory = Factory(name: string)

  /** The object one run of a factory returned: which factory, and which run it was. */
  datatype Instance = Instance(factory: Factory, serial: nat)

  /** A service provider class, identified by name. */
  datatype Provider = Provider(name: string)

  /** What the container asked the providers to do, in order. */
  datatype Event = RegisterCalled(provider: Provider) | BootCalled(provider: Provider)

  datatype State = State(
    providers: seq<Provider>,
    events: seq<Event>,
    booted: bool,
    instances: map<string, Instance>,
    bindings: map<string, Factory>,
    singletons: map<string, Factory>,
    runs: seq<string>)

  const Empty := State([], [], false, map[], map[], map[], [])

  /** Each key's factory ran at most once, and exactly the keys with a cached instance were
      run; the instance of a key is the one its run produced. */
  ghost predicate Valid(s: State) {
    (forall i, j :: 0 <= i < j < |s.runs| ==> s.runs[i] != s.runs[j])
    && (forall i :: 0 <= i < |s.runs| ==> s.runs[i] in s.instances)
    && (forall k :: k in s.instances ==> s.instances[k].serial < |s.runs| && s.runs[s.instances[k].serial] == k)
  }

  lemma EmptyValid()
    ensures Valid(Empty)
  {
  }

  // ---- register / boot ----

  function RegisterEvents(ps: seq<Provider>): (r: seq<Event>)
    ensures |r| == |ps|
    ensures forall i :: 0 <= i < |ps| ==> r[i] == RegisterCalled(ps[i])
  {
    if ps == [] then [] else [RegisterCalled(ps[0])] + RegisterEvents(ps[1..])
  }

  function BootEvents(ps: seq<Provider>): (r: seq<Event>)
    ensures |r| == |ps|
    ensures forall i :: 0 <= i < |ps| ==> r[i] == BootCalled(ps[i])
  {
    if ps == [] then [] else [BootCalled(ps[0])] + BootEvents(ps[1..])
  }

  /** `register(providerClasses)`: each provider is constructed, appended and asked to
      register, in argument order. */
  function Registered(s: State, ps: seq<Provider>): (r: State)
    ensures r.providers == s.providers + ps
    ensures r.events == s.events + RegisterEvents(ps)
    ensures r.booted == s.booted && r.instances == s.instances && r.runs == s.runs
  {
    s.(providers := s.providers + ps, events := s.events + RegisterEvents(ps))
  }

  /** `boot()`: nothing once booted; otherwise every registered provider is booted in order. */
  function Booted(s: State): (r: State)
    ensures r.booted
    ensures s.booted ==> r == s
    ensures !s.booted ==> r == s.(events := s.events + BootEvents(s.providers), booted := true)
  {
    if s.booted then s else s.(events := s.events + BootEvents(s.providers), booted := true)
  }

  /** Booting twice is booting once. */
  lemma BootOnce(s: State)
    ensures Booted(Booted(s)) == Booted(s)
  {
  }

  /** Providers registered after the boot are never booted: a later boot adds no event. */
  lemma LateProvidersNeverBoot(s: State, ps: seq<Provider>)
    ensures Booted(Registered(Booted(s), ps)) == Registered(Booted(s), ps)
    ensures forall e :: e in Registered(Booted(s), ps).events && e.BootCalled? ==> e in Booted(s).events
  {
    var b := Booted(s);
    forall e | e in Registered(b, ps).events && e.BootCalled?
      ensures e in b.events
    {
      var i :| 0 <= i < |b.events + RegisterEvents(ps)| && (b.events + RegisterEvents(ps))[i] == e;
    }
  }

  // ---- bind / singleton / make ----

  /** `bind(key, value)`: the binding for `key` is replaced. */
  function WithBinding(s: State, key: string, f: Factory): (r: State)
    ensures r.bindings == s.bindings[key := f]
    ensures r.instances == s.instances && r.singletons == s.singletons && r.runs == s.runs
  {
    s.(bindings := s.bindings[key := f])
  }

  /** `singleton(key, value)`: the singleton factory for `key` is replaced. */
  function WithSingleton(s: State, key: string, f: Factory): (r: State)
    ensures r.singletons == s.singletons[key := f]
    ensures r.instances == s.instances && r.bindings == s.bindings && r.runs == s.runs
  {
    s.(singletons := s.singletons[key := f])
  }

  /** One run of factory `f` for `key`: its instance is cached and the run recorded. */
  function Run(s: State, key: string, f: Factory): (Result<Instance>, State)
  {
    var inst := Instance(f, |s.runs|);
    (Ok(inst), s.(instances := s.instances[key := inst], runs := s.runs + [key]))
  }

  /** `make(key)`: a cached instance first; then the singleton factory, then the binding,
      each run once and its result cached; anything else throws. */
  function Made(s: State, key: string): (r: (Result<Instance>, State))
    ensures key in s.instances ==> r == (Ok(s.instances[key]), s)
    ensures key !in s.instances && key in s.singletons ==> r == Run(s, key, s.singletons[key])
    ensures key !in s.instances && key !in s.singletons && key in s.bindings ==> r == Run(s, key, s.bindings[key])
    ensures r.0.Err? <==> key !in s.instances && key !in s.singletons && key !in s.bindings
    ensures r.0.Err? ==> r.0.error == "Service " + key + " not found" && r.1 == s
    ensures r.0.Ok? ==> key in r.1.instances && r.1.instances[key] == r.0.value
  {
    if key in s.instances then (Ok(s.instances[key]), s)
    else if key in s.singletons then Run(s, key, s.singletons[key])
    else if key in s.bindings then Run(s, key, s.bindings[key])
    else (Err("Service " + key + " not found"), s)
  }

  /** `make` keeps every factory to one run per key. */
  lemma MadeValid(s: State, key: string)
    requires Valid(s)
    ensures Valid(Made(s, key).1)
  {
    var t := Made(s, key).1;
    if key !in s.instances && t != s {
      assert t.runs == s.runs + [key];
      forall i, j | 0 <= i < j < |t.runs| ensures t.runs[i] != t.runs[j] {
        if j == |s.runs| {
          assert s.runs[i] in s.instances;
        }
      }
    }
  }

  /** A second `make` of the same key returns the same instance and changes nothing: the
      factory does not run again, for a binding as much as for a singleton. */
  lemma MakeTwice(s: State, key: string)
    requires Made(s, key).0.Ok?
    ensures Made(Made(s, key).1, key) == (Made(s, key).0, Made(s, key).1)
  {
  }

  /** After a key has an instance, `bind` and `singleton` for it do not change what `make`
      returns. */
  lemma RebindAfterMake(s: State, key: string, f: Factory)
    requires key in s.instances
    ensures Made(WithBinding(s, key, f), key).0 == Made(s, key).0
    ensures Made(WithSingleton(s, key, f), key).0 == Made(s, key).0
  {
  }

  /** The factory of a key run with `make` is the singleton one when both kinds are given. */
  lemma SingletonBeforeBinding(s: State, key: string, f: Factory, g: Factory)
    requires key !in s.instances
    ensures var t := WithBinding(WithSingleton(s, key, f), key, g);
      Made(t, key).0 == Ok(Instance(f, |s.runs|))
  {
  }

  /** `bind` and `singleton` keep the container valid. */
  lemma BindValid(s: State, key: string, f: Factory)
    requires Valid(s)
    ensures Valid(WithBinding(s, key, f)) && Valid(WithSingleton(s, key, f))
  {
  }

  /** The container: its state is one `State` value spread over fields. */
  class Application {
    var providers: seq<Provider>
    var events: seq<Event>
    var booted: bool
    var instances: map<string, Instance>
    var bindings: map<string, Factory>
    var singletons: map<string, Factory>
    var runs: seq<string>

    function Snapshot(): State
      reads this
    {
      State(providers, events, booted, instances, bindings, singletons, runs)
    }

    constructor()
      ensures Snapshot() == Empty
    {
      providers, events, booted := [], [], false;
      instances, bindings, singletons, runs := map[], map[], map[], [];
    }

    /** `register(providerClasses)`: the loop over the classes. */
    method Register(ps: seq<Provider>)
      modifies this
      ensures Snapshot() == Registered(old(Snapshot()), ps)
    {
      for i := 0 to |ps|
        invariant Snapshot() == Registered(old(Snapshot()), ps[..i])
      {
        assert ps[..i + 1] == ps[..i] + [ps[i]];
        assert RegisterEvents(ps[..i + 1]) == RegisterEvents(ps[..i]) + [RegisterCalled(ps[i])];
        providers := providers + [ps[i]];
        events := events + [RegisterCalled(ps[i])];
      }
      assert ps[..|ps|] == ps;
    }

    /** `boot()`: the loop over the registered providers, skipped when already booted. */
    method Boot()
      modifies this
      ensures Snapshot() == Booted(old(Snapshot()))
    {
      if booted {
        return;
      }
      for i := 0 to |providers|
        invariant providers == old(providers) && !booted
        invariant Snapshot() == old(Snapshot()).(events := old(events) + BootEvents(providers[..i]))
      {
        assert providers[..i + 1] == providers[..i] + [providers[i]];
        assert BootEvents(providers[..i + 1]) == BootEvents(providers[..i]) + [BootCalled(providers[i])];
        events := events + [BootCalled(providers[i])];
      }
      assert providers[..|providers|] == providers;
      booted := true;
    }

    method Bind(key: string, f: Factory)
      modifies this
      ensures Snapshot() == WithBinding(old(Snapshot()), key, f)
    {
      bindings := bindings[key := f];
    }

    method Singleton(key: string, f: Factory)
      modifies this
      ensures Snapshot() == WithSingleton(old(Snapshot()), key, f)
    {
      singletons := singletons[key := f];
    }

    /** `make(key)`. */
    method Make(key: string) returns (r: Result<Instance>)
      modifies this
      ensures (r, Snapshot()) == Made(old(Snapshot()), key)
    {
      if key in instances {
        return Ok(instances[key]);
      }
      if key in singletons {
        var inst := Instance(singletons[key], |runs|);
        instances := instances[key := inst];
        runs := runs + [key];
        return Ok(inst);
      }
      if key in bindings {
        var inst := Instance(bindings[key], |runs|);
        instances := instances[key := inst];
        runs := runs + [key];
        return Ok(inst);
      }
      return Err("Service " + key + " not found");
    }
  }

  /** The holder of `Application.instance`, the static field behind `getInstance()`. */
  class Global {
    var instance: Option<Application>

    constructor()
      ensures instance.None?
    {
      instance := None;
    }

    /** `getInstance()`: the one application, created on the first call. */
    method GetInstance() returns (app: Application)
      modifies this
      ensures old(instance).Some? ==> app == old(instance).value && instance == old(instance)
      ensures old(instance).None? ==> fresh(app) && app.Snapshot() == Empty && instance == Some(app)
    {
      if instance.None? {
        var created := new Application();
        instance := Some(created);
      }
      app := instance.value;
    }
  }
}
