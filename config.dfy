/** The configuration tree (src/utils/config.py): a nested mapping loaded from YAML, deep-merged
    with extra files, read by dotted keys with `${NAME}` environment substitution, and written by
    dotted keys that create missing intermediate mappings. The YAML files and the process
    environment are inputs: the tree is a value and the environment a map. */
module Configuration {
  import opened Wrappers
  import opened Types
  import Text

  /** A YAML value; `Null` is YAML's null (Python's None). */
  datatype Value =
    | Null
    | BoolV(b: bool)
    | IntV(i: int)
    | RealV(r: real)
    | StrV(s: string)
    | ListV(items: seq<Value>)
    | Dict(entries: map<string, Value>)

  /** `_deep_merge(base, update)`: for every key of the update, two mappings merge recursively
      and anything else is replaced by the update's value; keys only in the base are kept. */
  function DeepMerge(base: map<string, Value>, update: Value): (m: map<string, Value>)
    requires update.Dict?
    decreases update
    ensures m.Keys == base.Keys + update.entries.Keys
    ensures forall k :: k in base && k !in update.entries ==> m[k] == base[k]
    ensures forall k :: k in update.entries && !(k in base && base[k].Dict? && update.entries[k].Dict?)
              ==> m[k] == update.entries[k]
    ensures forall k :: k in update.entries && k in base && base[k].Dict? && update.entries[k].Dict?
              ==> m[k] == Dict(DeepMerge(base[k].entries, update.entries[k]))
  {
    map k | k in base.Keys + update.entries.Keys ::
      if k !in update.entries then base[k]
      else if k in base && base[k].Dict? && update.entries[k].Dict? then
        Dict(DeepMerge(base[k].entries, update.entries[k]))
      else update.entries[k]
  }

  /** Merging a mapping into itself changes nothing. */
  lemma {:induction false} MergeWithItself(x: Value)
    requires x.Dict?
    decreases x
    ensures DeepMerge(x.entries, x) == x.entries
  {
    var m := DeepMerge(x.entries, x);
    forall k | k in x.entries && x.entries[k].Dict?
      ensures m[k] == x.entries[k]
    {
      MergeWithItself(x.entries[k]);
    }
    assert m.Keys == x.entries.Keys;
  }

  /** Merging the same update twice is merging it once. */
  lemma {:induction false} MergeIdempotent(base: map<string, Value>, update: Value)
    requires update.Dict?
    decreases update
    ensures DeepMerge(DeepMerge(base, update), update) == DeepMerge(base, update)
  {
    var once := DeepMerge(base, update);
    var twice := DeepMerge(once, update);
    forall k | k in update.entries
      ensures twice[k] == once[k]
    {
      var u := update.entries[k];
      if k in base && base[k].Dict? && u.Dict? {
        MergeIdempotent(base[k].entries, u);
      } else if u.Dict? {
        MergeWithItself(u);
      }
    }
    assert twice.Keys == once.Keys;
  }

  /** Where the walk along `keys` from `v` ends: None when a segment is missing, maps to null,
      or the value reached is not a mapping. */
  function Walk(v: Value, keys: seq<string>): (r: Option<Value>)
    ensures r.Some? ==> !r.value.Null? || (|keys| == 0 && v.Null?)
  {
    if |keys| == 0 then Some(v)
    else if !v.Dict? then None
    else if keys[0] !in v.entries || v.entries[keys[0]].Null? then None
    else Walk(v.entries[keys[0]], keys[1..])
  }

  /** Nothing is stored at the dotted key. */
  predicate Missing(entries: map<string, Value>, key: string)
  {
    Walk(Dict(entries), Text.Split(key, '.')).None?
  }

  /** A string of the form `${NAME}`. */
  predicate IsEnvRef(s: string)
  {
    |s| >= 3 && s[0] == '$' && s[1] == '{' && s[|s| - 1] == '}'
  }

  /** `get(key, default)`: the value at the dotted key, or the default when the walk fails; a
      `${NAME}` string is replaced by the environment's value of NAME, or by the default when
      NAME is unset. */
  function Lookup(entries: map<string, Value>, key: string, default: Value, env: map<string, string>): (r: Value)
    ensures Walk(Dict(entries), Text.Split(key, '.')).None? ==> r == default
    ensures (Walk(Dict(entries), Text.Split(key, '.')).Some?
             && !(Walk(Dict(entries), Text.Split(key, '.')).value.StrV?
                  && IsEnvRef(Walk(Dict(entries), Text.Split(key, '.')).value.s)))
            ==> r == Walk(Dict(entries), Text.Split(key, '.')).value
    ensures var w := Walk(Dict(entries), Text.Split(key, '.'));
            w.Some? && w.value.StrV? && IsEnvRef(w.value.s) ==>
              var name := w.value.s[2..|w.value.s| - 1];
              r == if name in env then StrV(env[name]) else default
  {
    match Walk(Dict(entries), Text.Split(key, '.'))
    case None => default
    case Some(v) =>
      if v.StrV? && IsEnvRef(v.s) then
        var name := v.s[2..|v.s| - 1];
        if name in env then StrV(env[name]) else default
      else v
  }

  /** A `set` along `keys` is blocked when an existing intermediate value is not a mapping. */
  predicate Blocked(m: map<string, Value>, keys: seq<string>)
    decreases |keys|
  {
    |keys| > 1 && keys[0] in m && (!m[keys[0]].Dict? || Blocked(m[keys[0]].entries, keys[1..]))
  }

  /** `set(key, value)` on the segments `keys`: missing intermediates become empty mappings and
      the last segment is assigned. An existing intermediate that is not a mapping makes Python
      raise TypeError. */
  function SetPath(m: map<string, Value>, keys: seq<string>, v: Value): (r: Result<map<string, Value>, Error>)
    requires |keys| > 0
    decreases |keys|
    ensures r.Err? <==> Blocked(m, keys)
    ensures r.Err? ==> r.error == TypeFailure
    ensures r.Ok? ==> r.value.Keys == m.Keys + {keys[0]}
    ensures r.Ok? ==> forall k :: k in m && k != keys[0] ==> r.value[k] == m[k]
  {
    if |keys| == 1 then Ok(m[keys[0] := v])
    else
      var child := if keys[0] in m then m[keys[0]] else Dict(map[]);
      if !child.Dict? then Err(TypeFailure)
      else
        var inner := SetPath(child.entries, keys[1..], v);
        if inner.Err? then Err(inner.error) else Ok(m[keys[0] := Dict(inner.value)])
  }

  /** After a successful set, walking the same segments finds the value (a null value reads as
      missing). */
  lemma {:induction false} WalkAfterSet(m: map<string, Value>, keys: seq<string>, v: Value)
    requires |keys| > 0 && SetPath(m, keys, v).Ok?
    decreases |keys|
    ensures Walk(Dict(SetPath(m, keys, v).value), keys) == if v.Null? then None else Some(v)
  {
    if |keys| > 1 {
      var child := if keys[0] in m then m[keys[0]] else Dict(map[]);
      WalkAfterSet(child.entries, keys[1..], v);
    }
  }

  /** A set leaves every path that starts with another segment as it was. */
  lemma WalkElsewhereAfterSet(m: map<string, Value>, keys: seq<string>, v: Value, other: seq<string>)
    requires |keys| > 0 && SetPath(m, keys, v).Ok?
    requires |other| > 0 && other[0] != keys[0]
    ensures Walk(Dict(SetPath(m, keys, v).value), other) == Walk(Dict(m), other)
  {
  }

  /** `float(value)`. Numeric strings are not parsed: they are refused like other strings. */
  function ToFloat(v: Value): (r: Result<real, Error>)
    ensures v.IntV? ==> r == Ok(v.i as real)
    ensures v.RealV? ==> r == Ok(v.r)
    ensures v.StrV? ==> r == Err(ValueFailure)
    ensures v.Null? || v.ListV? || v.Dict? ==> r == Err(TypeFailure)
  {
    match v
    case IntV(i) => Ok(i as real)
    case RealV(x) => Ok(x)
    case BoolV(b) => Ok(if b then 1.0 else 0.0)
    case StrV(_) => Err(ValueFailure)
    case _ => Err(TypeFailure)
  }

  /** The configuration manager: the tree loaded from the default file. */
  class Config {
    var entries: map<string, Value>

    /** `Config()`, with the default file's mapping already read. */
    constructor (defaults: map<string, Value>)
      ensures entries == defaults
    {
      entries := defaults;
    }

    /** `load_config`: merges an extra file's mapping into the tree. */
    method LoadConfig(extra: map<string, Value>)
      modifies this
      ensures entries == DeepMerge(old(entries), Dict(extra))
    {
      entries := DeepMerge(entries, Dict(extra));
    }

    /** `get`: walks the segments one at a time, then substitutes an environment reference. */
    method Get(key: string, default: Value, env: map<string, string>) returns (r: Value)
      ensures r == Lookup(entries, key, default, env)
    {
      var keys := Text.Split(key, '.');
      var value := Dict(entries);
      var i := 0;
      while i < |keys|
        invariant 0 <= i <= |keys|
        invariant Walk(Dict(entries), keys) == Walk(value, keys[i..])
      {
        assert keys[i..][1..] == keys[i + 1..];
        if !value.Dict? {
          return default;
        }
        var k := keys[i];
        if k !in value.entries || value.entries[k].Null? {
          return default;
        }
        value := value.entries[k];
        i := i + 1;
      }
      if value.StrV? && IsEnvRef(value.s) {
        var name := value.s[2..|value.s| - 1];
        if name in env {
          return StrV(env[name]);
        }
        return default;
      }
      return value;
    }

    /** `set`: assigns the value at the dotted key, creating missing mappings on the way. When
        an existing intermediate is not a mapping the source raises TypeError; nothing changes. */
    method Set(key: string, v: Value) returns (r: Result<(), Error>)
      modifies this
      ensures SetPath(old(entries), Text.Split(key, '.'), v).Ok? ==>
                r.Ok? && entries == SetPath(old(entries), Text.Split(key, '.'), v).value
      ensures SetPath(old(entries), Text.Split(key, '.'), v).Err? ==>
                r == Err(TypeFailure) && entries == old(entries)
    {
      var s := SetPath(entries, Text.Split(key, '.'), v);
      if s.Err? {
        return Err(s.error);
      }
      entries := s.value;
      return Ok(());
    }

    /** `config[key]`: the value, or ConfigNotFoundError when `get` gives None. */
    function GetItem(key: string, env: map<string, string>): (r: Result<Value, Error>)
      reads this
      ensures r.Err? <==> Lookup(entries, key, Null, env).Null?
      ensures r.Err? ==> r.error == ConfigNotFound
      ensures r.Ok? ==> r.value == Lookup(entries, key, Null, env)
    {
      var v := Lookup(entries, key, Null, env);
      if v.Null? then Err(ConfigNotFound) else Ok(v)
    }

    /** `key in config`. */
    predicate Contains(key: string, env: map<string, string>)
      reads this
    {
      !Lookup(entries, key, Null, env).Null?
    }

    /** `get_initial_capital`: `backtest.initial_capital`, 100000.0 by default. */
    function InitialCapital(env: map<string, string>): (r: Result<real, Error>)
      reads this
      ensures Missing(entries, "backtest.initial_capital") ==> r == Ok(100000.0)
    {
      ToFloat(Lookup(entries, "backtest.initial_capital", RealV(100000.0), env))
    }

    /** `get_commission_rate`: `backtest.commission.stock`, 0.0003 by default. */
    function CommissionRate(env: map<string, string>): (r: Result<real, Error>)
      reads this
      ensures Missing(entries, "backtest.commission.stock") ==> r == Ok(0.0003)
    {
      ToFloat(Lookup(entries, "backtest.commission.stock", RealV(0.0003), env))
    }

    /** `get_min_commission`: `backtest.commission.min_commission`, 5.0 by default. */
    function MinCommission(env: map<string, string>): (r: Result<real, Error>)
      reads this
      ensures Missing(entries, "backtest.commission.min_commission") ==> r == Ok(5.0)
    {
      ToFloat(Lookup(entries, "backtest.commission.min_commission", RealV(5.0), env))
    }

    /** `get_slippage`: `backtest.slippage`, 0.0001 by default. */
    function Slippage(env: map<string, string>): (r: Result<real, Error>)
      reads this
      ensures Missing(entries, "backtest.slippage") ==> r == Ok(0.0001)
    {
      ToFloat(Lookup(entries, "backtest.slippage", RealV(0.0001), env))
    }
  }

  /** A value that is neither null nor an environment reference reads back exactly as it was set. */
  lemma GetAfterSet(entries: map<string, Value>, key: string, v: Value, env: map<string, string>, default: Value)
    requires SetPath(entries, Text.Split(key, '.'), v).Ok?
    requires !v.Null? && !(v.StrV? && IsEnvRef(v.s))
    ensures Lookup(SetPath(entries, Text.Split(key, '.'), v).value, key, default, env) == v
  {
    WalkAfterSet(entries, Text.Split(key, '.'), v);
  }

  /** `__contains__` holds exactly when `__getitem__` succeeds. */
  lemma ContainsIffGetItem(c: Config, key: string, env: map<string, string>)
    ensures c.Contains(key, env) <==> c.GetItem(key, env).Ok?
  {
  }
}
