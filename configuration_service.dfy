/** `ConfigurationService.ts`: the same dotted-key store as `ConfigRepository.ts`, behind the
    `Config` facade. Its `get`, `has`, `object`, `array`, `string` and `boolean` read the cache
    exactly as the functions of module `Config` do; it has no `clearCache`. */
module ConfigurationService {
  import opened Wrappers
  import opened Js
  import Config

  class ConfigurationService {
    var configs: Props
    var cache: Props

    ghost predicate Valid()
      reads this
    {
      Config.Coherent(configs, cache)
    }

    constructor()
      ensures configs == [] && cache == [] && Valid()
    {
      configs := [];
      cache := [];
    }

    /** `loadConfigs()`, given the directory listing with each file's loaded value: nothing when
        the cache holds anything, otherwise every config file is stored and the cache becomes
        a copy of `configs`. */
    method LoadConfigs(listing: seq<(string, Value)>)
      requires Valid()
      modifies this
      ensures Valid()
      ensures old(cache) != [] ==> configs == old(configs) && cache == old(cache)
      ensures old(cache) == [] ==> configs == Config.Overlay(old(configs), listing) && cache == configs
    {
      if cache != [] {
        return;
      }
      configs := Config.Overlay(configs, listing);
      cache := configs;
    }

    /** `reload()`: `loadConfigs()` again, so a filled cache keeps it from reading anything. */
    method Reload(listing: seq<(string, Value)>)
      requires Valid()
      modifies this
      ensures Valid()
      ensures old(cache) != [] ==> configs == old(configs) && cache == old(cache)
      ensures old(cache) == [] ==> configs == Config.Overlay(old(configs), listing) && cache == configs
    {
      LoadConfigs(listing);
    }

    /** `set(key, value)`; a throw is `Err`. */
    method Set(key: string, v: Value) returns (outcome: Result<()>)
      requires Valid()
      modifies this
      ensures Valid()
      ensures var s := Config.SetState(old(configs), old(cache), key, v);
        configs == s.0 && cache == s.1 && (outcome.Ok? <==> s.2)
    {
      var file := Config.FileOf(key);
      var root := Lookup(configs, file).GetOr(Undefined);
      var node, ok := Config.AssignPath(Config.Start(root), Config.SetPath(key), v);
      Config.SetCoherent(configs, cache, key, v);
      configs := Put(configs, file, node);
      if ok || HasKey(cache, file) {
        cache := Put(cache, file, node);
      }
      outcome := if ok then Ok(()) else Err("Cannot create property on a primitive value");
    }
  }
}
