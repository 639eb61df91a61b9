/** The recursive configuration merge (OpenWA/src/core/plugins/plugin-activation.ts). */
module PluginConfig {
  import opened Wrappers

  datatype Json =
    | Null | Bool(b: bool) | Number(n: real) | Text(s: string) | Array(items: seq<Json>) | Object(fields: Config)
  type Config = map<string, Json>

  /** deepMerge as a value: key by key where both sides are plain objects, the override's value elsewhere. */
  function Merge(base: Config, override: Config): (out: Config)
    ensures out.Keys == base.Keys + override.Keys
    decreases Object(override)
  {
    map key | key in base.Keys + override.Keys ::
      if key !in override then base[key]
      else if key in base && base[key].Object? && override[key].Object?
      then Object(Merge(base[key].fields, override[key].fields))
      else override[key]
  }

  /** `out` is the base overwritten by the override's entries outside `todo`. */
  ghost predicate Overwritten(base: Config, override: Config, todo: set<string>, out: Config) {
    forall key ::
      && (key in out <==> key in base || (key in override && key !in todo))
      && (key in out ==> out[key] == if key in todo then base[key] else Merge(base, override)[key])
  }

  lemma OverwriteOne(base: Config, override: Config, todo: set<string>, out: Config, key: string)
    requires todo <= override.Keys && key in todo && Overwritten(base, override, todo, out)
    ensures Overwritten(base, override, todo - {key}, out[key := Merge(base, override)[key]])
    ensures key in out <==> key in base
    ensures key in out ==> out[key] == base[key]
  {
  }

  lemma MergedEntry(base: Config, override: Config, key: string)
    requires key in override
    ensures Merge(base, override)[key] ==
            if key in base && base[key].Object? && override[key].Object?
            then Object(Merge(base[key].fields, override[key].fields))
            else override[key]
  {
  }

  /** deepMerge: a copy of the base, overwritten entry by entry. */
  method DeepMerge(base: Config, override: Config) returns (out: Config)
    ensures out == Merge(base, override)
    decreases Object(override)
  {
    out := base;
    var todo := override.Keys;
    while todo != {}
      invariant todo <= override.Keys && Overwritten(base, override, todo, out)
      decreases |todo|
    {
      var key :| key in todo;
      OverwriteOne(base, override, todo, out, key);
      MergedEntry(base, override, key);
      var value := override[key];
      if key in out && out[key].Object? && value.Object? {
        var inner := DeepMerge(out[key].fields, value.fields);
        value := Object(inner);
      }
      out := out[key := value];
      todo := todo - {key};
    }
  }

  /** resolvePluginConfig */
  function Resolve(base: Config, sessionConfig: Option<map<string, Config>>, sessionId: Option<string>,
                   sessionScoped: bool): Config {
    if !sessionScoped || sessionId.None? || sessionConfig.None? || sessionId.value !in sessionConfig.value then base
    else Merge(base, sessionConfig.value[sessionId.value])
  }

  // ---- What a path reads ----

  function At(c: Config, path: seq<string>): Option<Json>
    requires path != []
    decreases |path|
  {
    if path[0] !in c then None
    else if |path| == 1 then Some(c[path[0]])
    else if c[path[0]].Object? then At(c[path[0]].fields, path[1..])
    else None
  }

  /** The override says nothing on the way to the path: it stops at an object without the next key. */
  predicate Silent(c: Config, path: seq<string>)
    requires path != []
    decreases |path|
  {
    path[0] !in c || (|path| > 1 && c[path[0]].Object? && Silent(c[path[0]].fields, path[1..]))
  }

  /** What the override and the base together say about a value the override sets. */
  function Combined(base: Option<Json>, set_: Json): Json {
    if base.Some? && base.value.Object? && set_.Object? then Object(Merge(base.value.fields, set_.fields)) else set_
  }

  /**
   * The value of a merged configuration at any path: the base's where the override is silent, the override's where
   * it sets the path (objects on both sides merged), and nothing below a value that replaced an object.
   */
  lemma {:induction false} MergedAt(base: Config, override: Config, path: seq<string>)
    requires path != []
    ensures At(Merge(base, override), path) ==
            if Silent(override, path) then At(base, path)
            else if At(override, path).Some? then Some(Combined(At(base, path), At(override, path).value))
            else None
    decreases |path|
  {
    var key := path[0];
    if |path| > 1 && key in override && override[key].Object? {
      if key in base && base[key].Object? {
        MergedAt(base[key].fields, override[key].fields, path[1..]);
      } else {
        SilentIsNone(override[key].fields, path[1..]);
      }
    }
  }

  lemma {:induction false} SilentIsNone(c: Config, path: seq<string>)
    requires path != []
    ensures Silent(c, path) ==> At(c, path).None?
    decreases |path|
  {
    if |path| > 1 && path[0] in c && c[path[0]].Object? {
      SilentIsNone(c[path[0]].fields, path[1..]);
    }
  }

  /** Merging a configuration over itself changes nothing. */
  lemma SelfMerge(c: Config)
    ensures Merge(c, c) == c
    decreases Object(c)
  {
    forall key | key in c ensures Merge(c, c)[key] == c[key] {
      if c[key].Object? {
        SelfMerge(c[key].fields);
      }
    }
  }

  /** Merging the same override twice is merging it once. */
  lemma {:induction false} MergeIsIdempotent(base: Config, override: Config)
    ensures Merge(Merge(base, override), override) == Merge(base, override)
    decreases Object(override)
  {
    var once := Merge(base, override);
    forall key | key in once ensures Merge(once, override)[key] == once[key] {
      if key in override && override[key].Object? {
        if key in base && base[key].Object? {
          MergeIsIdempotent(base[key].fields, override[key].fields);
        } else {
          SelfMerge(override[key].fields);
        }
      }
    }
  }

  /** The configuration a plugin sees for a session, path by path; sessions without an override see the base. */
  lemma ResolvedAt(base: Config, configs: map<string, Config>, session: string, path: seq<string>)
    requires path != []
    ensures var seen := At(Resolve(base, Some(configs), Some(session), true), path);
            && (session !in configs || Silent(configs[session], path) ==> seen == At(base, path))
            && (session in configs && At(configs[session], path).Some? && !At(configs[session], path).value.Object? ==>
                  seen == At(configs[session], path))
  {
    if session in configs {
      MergedAt(base, configs[session], path);
      SilentIsNone(configs[session], path);
    }
  }

  /** A global plugin, an event without a session and a plugin without session settings see the base. */
  lemma OthersSeeTheBase(base: Config, configs: Option<map<string, Config>>, session: Option<string>, scoped: bool)
    requires !scoped || session.None? || configs.None? || session.value !in configs.value
    ensures Resolve(base, configs, session, scoped) == base
  {
  }
}
