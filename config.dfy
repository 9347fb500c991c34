/**
 * The process-wide configuration: the API origin and the optional API key.
 * The source keeps them in two global cells; here they are the two fields of
 * a `GlobalConfig` object, and `Settings` is the value one reads from them.
 * The value of the SWARMNODE_API_KEY environment variable is a parameter.
 */
module Config {
  import opened Wrappers

  const DEFAULT_API_BASE: string := "api.swarmnode.ai"

  /** What a request reads from the two cells. */
  datatype Settings = Settings(apiBase: string, apiKey: Option<string>)

  /** The argument of `set_config`: each part is applied only when present. */
  datatype SwarmNodeConfig = SwarmNodeConfig(apiKey: Option<string>, apiBase: Option<string>)

  /** The operations that write the cells. */
  datatype Op =
    | SetBase(base: string)
    | SetKey(key: string)
    | KeyFromEnv(env: Option<string>)
    | Configure(config: SwarmNodeConfig, env: Option<string>)

  function Initial(): Settings {
    Settings(DEFAULT_API_BASE, None)
  }

  /**
   * The cells after one operation. `Configure` is given by its net effect:
   * the origin is replaced only when one is supplied, and an environment key
   * beats an explicit key because it is written last.
   */
  function Apply(s: Settings, op: Op): (r: Settings)
    ensures s.apiKey.Some? ==> r.apiKey.Some?
    ensures r.apiKey != s.apiKey ==>
      || (op.SetKey? && r.apiKey == Some(op.key))
      || (op.KeyFromEnv? && r.apiKey == op.env)
      || (op.Configure? && (r.apiKey == op.env || r.apiKey == op.config.apiKey))
    ensures r.apiBase != s.apiBase ==>
      || (op.SetBase? && r.apiBase == op.base)
      || (op.Configure? && op.config.apiBase == Some(r.apiBase))
  {
    match op
    case SetBase(b) => s.(apiBase := b)
    case SetKey(k) => s.(apiKey := Some(k))
    case KeyFromEnv(env) => if env.Some? then s.(apiKey := env) else s
    case Configure(c, env) =>
      Settings(
        c.apiBase.GetOr(s.apiBase),
        if env.Some? then env else if c.apiKey.Some? then c.apiKey else s.apiKey)
  }

  function ApplyAll(s: Settings, ops: seq<Op>): Settings
    decreases |ops|
  {
    if |ops| == 0 then s else ApplyAll(Apply(s, ops[0]), ops[1..])
  }

  /** Every operation either leaves the origin alone or sets it to a value it was given. */
  lemma ApplyBase(s: Settings, op: Op)
    ensures Apply(s, op).apiBase ==
      match op
      case SetBase(b) => b
      case Configure(c, _) => c.apiBase.GetOr(s.apiBase)
      case _ => s.apiBase
  {
  }

  /** In `set_config` an environment key overrides the explicit key; without either, the key is kept. */
  lemma ConfigureKey(s: Settings, c: SwarmNodeConfig, env: Option<string>)
    ensures env.Some? ==> Apply(s, Configure(c, env)).apiKey == env
    ensures env.None? && c.apiKey.Some? ==> Apply(s, Configure(c, env)).apiKey == c.apiKey
    ensures env.None? && c.apiKey.None? ==> Apply(s, Configure(c, env)).apiKey == s.apiKey
    ensures c.apiBase.None? ==> Apply(s, Configure(c, env)).apiBase == s.apiBase
  {
  }

  /** No operation ever clears the key: once present, it stays present whatever follows. */
  lemma {:induction false} KeyNeverCleared(s: Settings, ops: seq<Op>)
    requires s.apiKey.Some?
    ensures ApplyAll(s, ops).apiKey.Some?
    decreases |ops|
  {
    if |ops| > 0 {
      KeyNeverCleared(Apply(s, ops[0]), ops[1..]);
    }
  }

  /** A sequence of operations that never names a key leaves the key as it was. */
  lemma {:induction false} KeyOnlyFromKeyOps(s: Settings, ops: seq<Op>)
    requires forall i :: 0 <= i < |ops| ==> !ops[i].SetKey?
    requires forall i :: 0 <= i < |ops| ==> ops[i].KeyFromEnv? ==> ops[i].env.None?
    requires forall i :: 0 <= i < |ops| ==> ops[i].Configure? ==> ops[i].env.None? && ops[i].config.apiKey.None?
    ensures ApplyAll(s, ops).apiKey == s.apiKey
    decreases |ops|
  {
    if |ops| > 0 {
      KeyOnlyFromKeyOps(Apply(s, ops[0]), ops[1..]);
    }
  }

  /** The two global cells. */
  class GlobalConfig {
    var apiBase: string
    var apiKey: Option<string>

    function Snapshot(): Settings
      reads this
    {
      Settings(apiBase, apiKey)
    }

    /** The cells as the process starts: the default origin and no key. */
    constructor ()
      ensures Snapshot() == Initial()
      ensures apiBase == "api.swarmnode.ai" && apiKey == None
    {
      apiBase := DEFAULT_API_BASE;
      apiKey := None;
    }

    method SetApiBase(base: string)
      modifies this
      ensures apiBase == base && apiKey == old(apiKey)
      ensures Snapshot() == Apply(old(Snapshot()), SetBase(base))
    {
      apiBase := base;
    }

    method GetApiBase() returns (base: string)
      ensures base == apiBase
    {
      base := apiBase;
    }

    method SetApiKey(key: string)
      modifies this
      ensures apiKey == Some(key) && apiBase == old(apiBase)
      ensures Snapshot() == Apply(old(Snapshot()), SetKey(key))
    {
      apiKey := Some(key);
    }

    method GetApiKey() returns (key: Option<string>)
      ensures key == apiKey
    {
      key := apiKey;
    }

    /** Writes the environment's key, when there is one. */
    method InitializeApiKeyFromEnv(env: Option<string>)
      modifies this
      ensures env.Some? ==> apiKey == env
      ensures env.None? ==> apiKey == old(apiKey)
      ensures apiBase == old(apiBase)
      ensures Snapshot() == Apply(old(Snapshot()), KeyFromEnv(env))
    {
      if env.Some? {
        SetApiKey(env.value);
      }
    }

    /** The explicit key, then the explicit origin, then the environment's key. */
    method SetConfig(config: SwarmNodeConfig, env: Option<string>)
      modifies this
      ensures Snapshot() == Apply(old(Snapshot()), Configure(config, env))
      ensures old(apiKey).Some? ==> apiKey.Some?
    {
      if config.apiKey.Some? {
        SetApiKey(config.apiKey.value);
      }
      if config.apiBase.Some? {
        SetApiBase(config.apiBase.value);
      }
      InitializeApiKeyFromEnv(env);
    }
  }
}
