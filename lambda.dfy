/** The lambda service (back/src/lambda.ts): a cache `name -> mtime` decides when a
    lambda's module is loaded again; a reload defaults the module's dependency list
    and provisions it with `npm install`; `run` calls the module's handler. The file
    system, the module loader and the process spawner are collaborators whose
    outcomes are passed in. */
module Lambda {
  import opened Wrappers

  /** `resolver(resolve, reject, map)` as the node-style callback `(err, value)` it builds:
      a truthy `err` (here `Some`) rejects with it, otherwise the promise resolves with
      `mapping(value)` (the `map` argument). */
  function Resolver<T, U, E>(err: Option<E>, value: T, mapping: T -> U): (r: Result<U, E>)
    ensures r.Err? <==> err.Some?
    ensures r.Err? ==> r.error == err.value
    ensures r.Ok? ==> r.value == mapping(value)
  {
    match err
    case Some(e) => Err(e)
    case None => Ok(mapping(value))
  }

  /** `resolver(resolve, reject)` without `map`: resolves with the value itself. */
  function PlainResolver<T, E>(err: Option<E>, value: T): (r: Result<T, E>)
    ensures r.Err? <==> err.Some?
    ensures r.Err? ==> r.error == err.value
    ensures r.Ok? ==> r.value == value
  {
    match err
    case Some(e) => Err(e)
    case None => Ok(value)
  }

  /** Leaving `map` out is the same as mapping with the identity. */
  lemma PlainResolverIsIdentityMap<T, E>(err: Option<E>, value: T)
    ensures PlainResolver(err, value) == Resolver(err, value, (x: T) => x)
  {
  }

  /** A loaded lambda module: an opaque handler and the optional `dependencies` field. */
  datatype Module = Module(handler: nat, dependencies: Option<seq<string>>)

  /** The failures a call can end with, each carrying its collaborator's error. */
  datatype Failure =
    | StatFailed(reason: string)      // fs.stat of index.js
    | LoadFailed(reason: string)      // require(lambdaPath) threw
    | MkdirFailed(reason: string)     // mkdirp of node_modules
    | SpawnFailed(reason: string)     // 'error' event of the npm process
    | HandlerFailed(reason: string)   // lambda.handler(vars) threw or rejected

  /** The side effects of provisioning, in order. */
  datatype Effect =
    | Mkdir(dir: string)
    | Spawn(command: string, args: seq<string>, cwd: string)

  /** How the spawned npm process ends: an `exit` event with any code, or an `error` event. */
  datatype SpawnEvent = Exited(code: int) | SpawnError(reason: string)

  /** The effects `runNpmInstall` performed and how its promise settled. */
  datatype Provisioning = Provisioning(effects: seq<Effect>, outcome: Result<(), Failure>)

  /** The directory of lambda `name` (`lambdas/<name>`; path normalisation is not modelled). */
  function LambdaPath(name: string): string
  {
    "lambdas/" + name
  }

  function NodeModules(lambdaPath: string): string
  {
    lambdaPath + "/node_modules"
  }

  /** The npm invocation: `npm install ...deps` in the lambda's directory. */
  function NpmInstall(deps: seq<string>, lambdaPath: string): Effect
  {
    Spawn("npm", ["install"] + deps, lambdaPath)
  }

  /** `runNpmInstall(lambda, lambdaPath)`: creates `node_modules` only when there are
      dependencies, then spawns `npm install ...deps` unless that mkdir failed
      (also when there are no dependencies); the promise resolves on the process's
      exit whatever its code and rejects only on a mkdir error or a spawn `error` event.
      `mkdirErr` is the outcome of mkdirp, `spawn` the process's fate. */
  function RunNpmInstall(deps: seq<string>, lambdaPath: string, mkdirErr: Option<string>, spawn: SpawnEvent): (p: Provisioning)
    ensures Mkdir(NodeModules(lambdaPath)) in p.effects <==> |deps| > 0
    ensures NpmInstall(deps, lambdaPath) in p.effects <==> (|deps| == 0 || mkdirErr.None?)
    ensures |p.effects| <= 2 && (|p.effects| == 2 ==> p.effects[0].Mkdir? && p.effects[1].Spawn?)
    ensures forall e | e in p.effects :: e == Mkdir(NodeModules(lambdaPath)) || e == NpmInstall(deps, lambdaPath)
    ensures p.outcome.Err? <==> (|deps| > 0 && mkdirErr.Some?) || ((|deps| == 0 || mkdirErr.None?) && spawn.SpawnError?)
    ensures |deps| > 0 && mkdirErr.Some? ==> p.outcome == Err(MkdirFailed(mkdirErr.value))
    ensures (|deps| == 0 || mkdirErr.None?) && spawn.SpawnError? ==> p.outcome == Err(SpawnFailed(spawn.reason))
  {
    var mkdir: Result<(), string> := if |deps| > 0 then PlainResolver(mkdirErr, ()) else Ok(());
    var before := if |deps| > 0 then [Mkdir(NodeModules(lambdaPath))] else [];
    match mkdir
    case Err(e) => Provisioning(before, Err(MkdirFailed(e)))
    case Ok(_) =>
      var effects := before + [NpmInstall(deps, lambdaPath)];
      match spawn
      case Exited(_) => Provisioning(effects, Ok(()))
      case SpawnError(e) => Provisioning(effects, Err(SpawnFailed(e)))
  }

  /** The exit code of npm never matters. */
  lemma {:induction false} ExitCodeIgnored(deps: seq<string>, lambdaPath: string, mkdirErr: Option<string>, c1: int, c2: int)
    ensures RunNpmInstall(deps, lambdaPath, mkdirErr, Exited(c1)) == RunNpmInstall(deps, lambdaPath, mkdirErr, Exited(c2))
    ensures RunNpmInstall(deps, lambdaPath, mkdirErr, Exited(c1)).outcome.Ok? <==> (|deps| == 0 || mkdirErr.None?)
  {
  }

  /** The module after `if (!lambda.dependencies) lambda.dependencies = []`. */
  function WithDefaultDependencies(m: Module): (r: Module)
    ensures r.handler == m.handler && r.dependencies.Some?
    ensures m.dependencies.Some? ==> r == m
    ensures m.dependencies.None? ==> r.dependencies == Some([])
  {
    if m.dependencies.None? then m.(dependencies := Some([])) else m
  }

  /** The reload decision of `grabLambda`: the name was never cached, or the cached mtime
      differs, by exact inequality, from the observed one (an older file reloads too). */
  function ShouldReload(cache: map<string, int>, name: string, mtime: int): (r: bool)
    ensures r <==> CachedMtime(cache, name) != Some(mtime)
  {
    !(name in cache) || cache[name] != mtime
  }

  /** The reload flags of successive successful stats of one lambda, the cache being
      updated to each observed mtime before the next call. */
  function ReloadFlags(cache: map<string, int>, name: string, mtimes: seq<int>): (flags: seq<bool>)
    ensures |flags| == |mtimes|
    decreases |mtimes|
  {
    if |mtimes| == 0 then []
    else [ShouldReload(cache, name, mtimes[0])] + ReloadFlags(cache[name := mtimes[0]], name, mtimes[1..])
  }

  /** How many times the observed mtime changed along `mtimes`, counting the first
      observation when it differs from the cached one. */
  function Changes(previous: Option<int>, mtimes: seq<int>): nat
    decreases |mtimes|
  {
    if |mtimes| == 0 then 0
    else (if previous != Some(mtimes[0]) then 1 else 0) + Changes(Some(mtimes[0]), mtimes[1..])
  }

  function Count(flags: seq<bool>): nat
  {
    if |flags| == 0 then 0 else (if flags[0] then 1 else 0) + Count(flags[1..])
  }

  function CachedMtime(cache: map<string, int>, name: string): Option<int>
  {
    if name in cache then Some(cache[name]) else None
  }

  /** A lambda is reloaded exactly as many times as its observed mtime changes; other
      names' cache entries play no part. */
  lemma {:induction false} ReloadsCountChanges(cache: map<string, int>, name: string, mtimes: seq<int>)
    ensures Count(ReloadFlags(cache, name, mtimes)) == Changes(CachedMtime(cache, name), mtimes)
    decreases |mtimes|
  {
    if |mtimes| > 0 {
      var next := cache[name := mtimes[0]];
      ReloadsCountChanges(next, name, mtimes[1..]);
      assert CachedMtime(next, name) == Some(mtimes[0]);
      assert ReloadFlags(cache, name, mtimes)[1..] == ReloadFlags(next, name, mtimes[1..]);
    }
  }

  /** While the file's mtime stays the same, at most the first call reloads, and none
      does when that mtime is already cached, whether or not earlier reloads succeeded. */
  lemma {:induction false} SteadyMtimeReloadsAtMostOnce(cache: map<string, int>, name: string, mtimes: seq<int>, m: int)
    requires forall i | 0 <= i < |mtimes| :: mtimes[i] == m
    ensures Count(ReloadFlags(cache, name, mtimes)) <= 1
    ensures name in cache && cache[name] == m ==> Count(ReloadFlags(cache, name, mtimes)) == 0
    ensures forall i | 1 <= i < |mtimes| :: !ReloadFlags(cache, name, mtimes)[i]
  {
    ReloadsCountChanges(cache, name, mtimes);
    if |mtimes| > 0 {
      SameChangesNone(mtimes[1..], m);
      SteadyFlagsFalse(cache[name := m], name, mtimes[1..], m);
      assert ReloadFlags(cache, name, mtimes)[1..] == ReloadFlags(cache[name := m], name, mtimes[1..]);
    }
  }

  lemma {:induction false} SameChangesNone(mtimes: seq<int>, m: int)
    requires forall i | 0 <= i < |mtimes| :: mtimes[i] == m
    ensures Changes(Some(m), mtimes) == 0
    decreases |mtimes|
  {
    if |mtimes| > 0 {
      SameChangesNone(mtimes[1..], m);
    }
  }

  lemma {:induction false} SteadyFlagsFalse(cache: map<string, int>, name: string, mtimes: seq<int>, m: int)
    requires name in cache && cache[name] == m
    requires forall i | 0 <= i < |mtimes| :: mtimes[i] == m
    ensures forall i | 0 <= i < |mtimes| :: !ReloadFlags(cache, name, mtimes)[i]
    decreases |mtimes|
  {
    if |mtimes| > 0 {
      assert cache[name := mtimes[0]] == cache;
      SteadyFlagsFalse(cache, name, mtimes[1..], m);
      assert ReloadFlags(cache, name, mtimes) == [false] + ReloadFlags(cache, name, mtimes[1..]);
    }
  }

  /** The state and outputs of one `grabLambda` call: the new cache and module registry,
      the provisioning effects, and how the returned promise settles. */
  datatype Grab = Grab(cache: map<string, int>, required: map<string, Module>, effects: seq<Effect>, result: Result<Module, Failure>)

  /** `require(lambdaPath)` on the registry `required`: the registered module, else the
      module on disk, which is then registered. */
  function Required(required: map<string, Module>, name: string, onDisk: Result<Module, string>): (g: (map<string, Module>, Result<Module, Failure>))
    ensures name in required ==> g == (required, Ok(required[name]))
    ensures name !in required && onDisk.Ok? ==> g == (required[name := onDisk.value], Ok(onDisk.value))
    ensures name !in required && onDisk.Err? ==> g == (required, Err(LoadFailed(onDisk.error)))
  {
    if name in required then (required, Ok(required[name]))
    else match onDisk
      case Ok(m) => (required[name := m], Ok(m))
      case Err(e) => (required, Err(LoadFailed(e)))
  }

  /** What `grabLambda(name)` does from cache `cache` and registry `required`: a failed
      stat changes nothing; a stat records the mtime; a reload unregisters the module,
      loads and registers it with defaulted dependencies and provisions it, a failed
      provisioning rejecting; then the lambda is required. */
  function GrabOutcome(cache: map<string, int>, required: map<string, Module>, name: string, stat: Result<int, string>,
                       onDisk: Result<Module, string>, mkdirErr: Option<string>, spawn: SpawnEvent): (g: Grab)
    ensures stat.Err? ==> g == Grab(cache, required, [], Err(StatFailed(stat.error)))
    ensures stat.Ok? ==> g.cache == cache[name := stat.value]
    ensures stat.Ok? && !ShouldReload(cache, name, stat.value) ==>
              g.effects == [] && (g.required, g.result) == Required(required, name, onDisk)
    ensures stat.Ok? && ShouldReload(cache, name, stat.value) && onDisk.Err? ==>
              g.effects == [] && g.required == required - {name} && g.result == Err(LoadFailed(onDisk.error))
    ensures stat.Ok? && ShouldReload(cache, name, stat.value) && onDisk.Ok? ==>
              var m := WithDefaultDependencies(onDisk.value);
              var p := RunNpmInstall(m.dependencies.value, LambdaPath(name), mkdirErr, spawn);
              && g.required == required[name := m]
              && g.effects == p.effects
              && g.result == (if p.outcome.Ok? then Ok(m) else Err(p.outcome.error))
  {
    match stat
    case Err(e) => Grab(cache, required, [], Err(StatFailed(e)))
    case Ok(mtime) =>
      var next := cache[name := mtime];
      if !ShouldReload(cache, name, mtime) then
        var (req, r) := Required(required, name, onDisk);
        Grab(next, req, [], r)
      else
        match onDisk
        case Err(e) => Grab(next, required - {name}, [], Err(LoadFailed(e)))
        case Ok(loaded) =>
          var m := WithDefaultDependencies(loaded);
          var p := RunNpmInstall(m.dependencies.value, LambdaPath(name), mkdirErr, spawn);
          Grab(next, required[name := m], p.effects, if p.outcome.Ok? then Ok(m) else Err(p.outcome.error))
  }

  /** Once a grab has got past loading the module (whether or not `npm install` then
      succeeded), grabbing again while the mtime is unchanged performs no effect and
      returns the registered module, whatever the file on disk, mkdirp and npm would do now. */
  lemma {:induction false} RegrabAtSameMtime(cache: map<string, int>, required: map<string, Module>, name: string, mtime: int,
                                               onDisk: Result<Module, string>, mkdirErr: Option<string>, spawn: SpawnEvent,
                                               onDisk2: Result<Module, string>, mkdirErr2: Option<string>, spawn2: SpawnEvent)
    requires onDisk.Ok? || (name in required && !ShouldReload(cache, name, mtime))
    ensures var g := GrabOutcome(cache, required, name, Ok(mtime), onDisk, mkdirErr, spawn);
            && name in g.required
            && GrabOutcome(g.cache, g.required, name, Ok(mtime), onDisk2, mkdirErr2, spawn2)
               == Grab(g.cache, g.required, [], Ok(g.required[name]))
  {
    var g := GrabOutcome(cache, required, name, Ok(mtime), onDisk, mkdirErr, spawn);
    assert g.cache[name] == mtime;
    assert !ShouldReload(g.cache, name, mtime);
    assert g.cache[name := mtime] == g.cache;
  }

  /** A reload whose `npm install` fails still records the mtime and registers the module,
      so the next grab at that mtime succeeds without running npm again. */
  lemma {:induction false} FailedProvisioningNotRetried(cache: map<string, int>, required: map<string, Module>, name: string, mtime: int,
                                                          loaded: Module, mkdirErr: Option<string>, spawn: SpawnEvent,
                                                          onDisk2: Result<Module, string>, mkdirErr2: Option<string>, spawn2: SpawnEvent)
    requires ShouldReload(cache, name, mtime)
    requires GrabOutcome(cache, required, name, Ok(mtime), Ok(loaded), mkdirErr, spawn).result.Err?
    ensures var g := GrabOutcome(cache, required, name, Ok(mtime), Ok(loaded), mkdirErr, spawn);
            GrabOutcome(g.cache, g.required, name, Ok(mtime), onDisk2, mkdirErr2, spawn2).result == Ok(WithDefaultDependencies(loaded))
  {
    var g := GrabOutcome(cache, required, name, Ok(mtime), Ok(loaded), mkdirErr, spawn);
    RegrabAtSameMtime(cache, required, name, mtime, Ok(loaded), mkdirErr, spawn, onDisk2, mkdirErr2, spawn2);
    assert g.required[name] == WithDefaultDependencies(loaded);
  }

  /** The result of `run`: the grab's failure, or the handler's outcome on the grabbed module. */
  function RunResult<A, V>(grabbed: Result<Module, Failure>, vars: A, invoke: (Module, A) -> Result<V, string>): (r: Result<V, Failure>)
    ensures grabbed.Err? ==> r == Err(grabbed.error)
    ensures grabbed.Ok? && invoke(grabbed.value, vars).Ok? ==> r == Ok(invoke(grabbed.value, vars).value)
    ensures grabbed.Ok? && invoke(grabbed.value, vars).Err? ==> r == Err(HandlerFailed(invoke(grabbed.value, vars).error))
  {
    match grabbed
    case Err(e) => Err(e)
    case Ok(m) =>
      match invoke(m, vars)
      case Ok(v) => Ok(v)
      case Err(e) => Err(HandlerFailed(e))
  }

  /** The lambda service: `lambdaCache` as a map `name -> mtime` (milliseconds), and
      Node's module registry for the lambdas' paths (`require.cache`). */
  class LambdaService {
    var lambdaCache: map<string, int>
    var required: map<string, Module>

    constructor ()
      ensures lambdaCache == map[] && required == map[]
    {
      lambdaCache := map[];
      required := map[];
    }

    /** `require(lambdaPath)`: the registered module if there is one, otherwise the module
        loaded from disk (`onDisk`), which is then registered; a load that throws registers nothing. */
    method Require(name: string, onDisk: Result<Module, string>) returns (r: Result<Module, Failure>)
      modifies this`required
      ensures (required, r) == Required(old(required), name, onDisk)
    {
      if name in required {
        r := Ok(required[name]);
      } else {
        match onDisk {
          case Ok(m) =>
            required := required[name := m];
            r := Ok(m);
          case Err(e) =>
            r := Err(LoadFailed(e));
        }
      }
    }

    /** The stat step of `grabLambda`: on a failed stat the promise rejects and the cache
        is untouched; otherwise the reload flag is computed against the old cache and the
        cache entry of `name` is set to the observed mtime. */
    method CheckStale(name: string, stat: Result<int, string>) returns (r: Result<bool, Failure>)
      modifies this`lambdaCache
      ensures stat.Err? ==> lambdaCache == old(lambdaCache) && r == Err(StatFailed(stat.error))
      ensures stat.Ok? ==> lambdaCache == old(lambdaCache)[name := stat.value]
      ensures stat.Ok? ==> r == Ok(ShouldReload(old(lambdaCache), name, stat.value))
    {
      match stat {
        case Err(e) =>
          r := Err(StatFailed(e));
        case Ok(mtime) =>
          var result := ShouldReload(lambdaCache, name, mtime);
          lambdaCache := lambdaCache[name := mtime];
          r := Ok(result);
      }
    }

    /** `grabLambda(name)`: stat, then on a reload drop the registered module, load it
        again, default its dependencies and provision them; finally `require` the lambda.
        `stat` is the stat outcome (the mtime), `onDisk` what loading the file yields,
        `mkdirErr` and `spawn` the provisioning collaborators' outcomes. */
    method GrabLambda(name: string, stat: Result<int, string>, onDisk: Result<Module, string>,
                      mkdirErr: Option<string>, spawn: SpawnEvent)
      returns (effects: seq<Effect>, r: Result<Module, Failure>)
      modifies this
      ensures Grab(lambdaCache, required, effects, r) ==
              GrabOutcome(old(lambdaCache), old(required), name, stat, onDisk, mkdirErr, spawn)
    {
      effects := [];
      var shouldReload := CheckStale(name, stat);
      match shouldReload {
        case Err(e) =>
          r := Err(e);
        case Ok(reload) =>
          if reload {
            required := required - {name};
            match onDisk {
              case Err(e) =>
                r := Err(LoadFailed(e));
                return;
              case Ok(loaded) =>
                var lambda := WithDefaultDependencies(loaded);
                required := required[name := lambda];
                var p := RunNpmInstall(lambda.dependencies.value, LambdaPath(name), mkdirErr, spawn);
                effects := p.effects;
                if p.outcome.Err? {
                  r := Err(p.outcome.error);
                  return;
                }
            }
          }
          r := Require(name, onDisk);
      }
    }

    /** `run(name, vars)`: grab the lambda, then call its handler (`invoke`) with `vars`. */
    method Run<A, V>(name: string, vars: A, stat: Result<int, string>, onDisk: Result<Module, string>,
                     mkdirErr: Option<string>, spawn: SpawnEvent, invoke: (Module, A) -> Result<V, string>)
      returns (effects: seq<Effect>, r: Result<V, Failure>)
      modifies this
      ensures var g := GrabOutcome(old(lambdaCache), old(required), name, stat, onDisk, mkdirErr, spawn);
              && lambdaCache == g.cache && required == g.required && effects == g.effects
              && r == RunResult(g.result, vars, invoke)
    {
      var grabbed;
      effects, grabbed := GrabLambda(name, stat, onDisk, mkdirErr, spawn);
      match grabbed {
        case Err(e) => r := Err(e);
        case Ok(lambda) =>
          match invoke(lambda, vars) {
            case Ok(v) => r := Ok(v);
            case Err(e) => r := Err(HandlerFailed(e));
          }
      }
    }
  }
}
