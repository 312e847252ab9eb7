/** The connection-pool manager: the single place the sink obtains JDBC connections from. It
    builds a DBCP `BasicDataSource` from the sink's configuration, applies every `dbcp.<key>`
    setting to the setter of that name, and hands out pooled connections. */
module ConnectionPool {
  import opened Wrappers
  import opened Failures
  import opened Text
  import opened Numbers

  const DriverKey: string := "driver"
  const ConnectionStringKey: string := "connectionString"
  const UserKey: string := "username"
  const PasswordKey: string := "password"
  const DbcpPrefix: string := "dbcp."

  /** The sink's configuration (the Flume `Context`): key to value. */
  type Context = map<string, string>

  /** `context.getString(key)`: the value, or None for Java's null. */
  function Get(context: Context, key: string): Option<string>
  {
    if key in context then Some(context[key]) else None
  }

  /** Flume `Context.getSubProperties(prefix)`: the keys that start with the prefix, with the
      prefix removed, each with its value. */
  function SubProperties(context: Context, prefix: string): (sub: map<string, string>)
    ensures forall k :: k in sub <==> prefix + k in context
    ensures forall k :: k in sub ==> sub[k] == context[prefix + k]
  {
    var keys := set k | k in context && StartsWith(k, prefix) :: k[|prefix|..];
    assert forall k :: k in keys <==> prefix + k in context by {
      forall k ensures k in keys <==> prefix + k in context {
        if prefix + k in context {
          assert StartsWith(prefix + k, prefix) && (prefix + k)[|prefix|..] == k;
        }
        if k in keys {
          var full :| full in context && StartsWith(full, prefix) && full[|prefix|..] == k;
          assert full == prefix + k;
        }
      }
    }
    map k | k in keys :: context[prefix + k]
  }

  // ---- the pool and its setters ----

  /** The first parameter type of a pool method, as far as the manager distinguishes it: the
      first of int, long, boolean and String that is assignable to it (so StringParam also
      stands for Object or CharSequence), or OtherParam when none is. */
  datatype ParamType = IntParam | LongParam | BooleanParam | StringParam | OtherParam

  /** A method of the pool class as reflection reports it: its name and its parameter types. */
  datatype Method = Method(name: string, params: seq<ParamType>)

  /** A value a setter received; Null is a Java null string. */
  datatype Setting = Str(text: string) | Null | IntVal(i: int) | LongVal(l: int) | BoolVal(b: bool)

  function Nullable(s: Option<string>): Setting
  {
    if s.Some? then Str(s.value) else Null
  }

  /** The setter a `dbcp.<key>` setting is meant for. */
  function SetterName(key: string): string
  {
    "set" + Capitalize(key)
  }

  /** The value the first parameter type makes of the text, or None when the parse throws
      (`NumberFormatException`) or when the type is none of int, long, boolean and String. */
  function Coerce(param: ParamType, value: string): (r: Option<Setting>)
    ensures param == BooleanParam ==> r == Some(BoolVal(ParseBoolean(value)))
    ensures param == StringParam ==> r == Some(Str(value))
    ensures param == OtherParam ==> r == None
    ensures param == IntParam ==> (r.Some? <==> ParseInt(value).Some?)
    ensures param == LongParam ==> (r.Some? <==> ParseLong(value).Some?)
    ensures param == IntParam && r.Some? ==> r.value == IntVal(ParseInt(value).value)
    ensures param == LongParam && r.Some? ==> r.value == LongVal(ParseLong(value).value)
  {
    match param
    case IntParam => if ParseInt(value).Some? then Some(IntVal(ParseInt(value).value)) else None
    case LongParam => if ParseLong(value).Some? then Some(LongVal(ParseLong(value).value)) else None
    case BooleanParam => Some(BoolVal(ParseBoolean(value)))
    case StringParam => Some(Str(value))
    case OtherParam => None
  }

  /** A numeric setter receives exactly the number a decimal property value spells, for every
      value its parameter type can hold. */
  lemma CoerceDecimal(n: int)
    ensures IntMin <= n <= IntMax ==> Coerce(IntParam, Decimal(n)) == Some(IntVal(n))
    ensures LongMin <= n <= LongMax ==> Coerce(LongParam, Decimal(n)) == Some(LongVal(n))
  {
    if IntMin <= n <= IntMax {
      DecimalRoundTrip(n, IntMin, IntMax);
    }
    if LongMin <= n <= LongMax {
      DecimalRoundTrip(n, LongMin, LongMax);
    }
  }

  /** The reflective search: the methods are visited in order; the first one with parameters,
      the setter's name and a supported first parameter type is invoked with the converted
      value, unless the conversion throws, which ends the search. */
  function Invoked(methods: seq<Method>, name: string, value: string): (r: Option<Setting>)
    decreases |methods|
  {
    if methods == [] then None
    else
      var m := methods[0];
      if |m.params| > 0 && m.name == name && m.params[0] != OtherParam then Coerce(m.params[0], value)
      else Invoked(methods[1..], name, value)
  }

  /** What the setting `dbcp.<key> = value` does to the pool: the setter and its new value, or
      None when it only logs a warning (no such setter, or a value its type cannot parse). */
  function KeySetting(methods: seq<Method>, key: string, value: string): Option<Setting>
  {
    Invoked(methods, SetterName(key), value)
  }

  /** What the setting of one `dbcp.` key does: the setter it is meant for and the value that
      setter receives, or None when the setting only warns. */
  datatype Change = Change(key: string, setter: string, setting: Option<Setting>)

  /** The setters' values after the changes, applied in order. */
  function Apply(props: map<string, Setting>, changes: seq<Change>): map<string, Setting>
    decreases |changes|
  {
    if changes == [] then props
    else
      var before, last := Apply(props, changes[..|changes| - 1]), changes[|changes| - 1];
      if last.setting.Some? then before[last.setter := last.setting.value] else before
  }

  /** The keys of the changes that only warned, in order. */
  function Skipped(changes: seq<Change>): seq<string>
    decreases |changes|
  {
    if changes == [] then []
    else
      var before, last := Skipped(changes[..|changes| - 1]), changes[|changes| - 1];
      if last.setting.None? then before + [last.key] else before
  }

  /** The change each `dbcp.` key makes, in the order of `keys`. */
  function Changes(methods: seq<Method>, keys: seq<string>, sub: map<string, string>): (cs: seq<Change>)
    requires forall i :: 0 <= i < |keys| ==> keys[i] in sub
    ensures |cs| == |keys|
  {
    seq(|keys|, i requires 0 <= i < |keys| && keys[i] in sub => Change(keys[i], SetterName(keys[i]), KeySetting(methods, keys[i], sub[keys[i]])))
  }

  /** The setters' values after the settings of `keys`, applied in that order. */
  function ApplyKeys(methods: seq<Method>, props: map<string, Setting>, keys: seq<string>, sub: map<string, string>): map<string, Setting>
    requires forall i :: 0 <= i < |keys| ==> keys[i] in sub
  {
    Apply(props, Changes(methods, keys, sub))
  }

  /** The keys whose setting only logged a warning (`chkSet` stayed false), in order. */
  function Unapplied(methods: seq<Method>, keys: seq<string>, sub: map<string, string>): seq<string>
    requires forall i :: 0 <= i < |keys| ==> keys[i] in sub
  {
    Skipped(Changes(methods, keys, sub))
  }

  /** `order` is an iteration order of the keys of `sub`: each key exactly once. */
  predicate KeyOrder(order: seq<string>, sub: map<string, string>)
  {
    && (forall i :: 0 <= i < |order| ==> order[i] in sub)
    && (forall k :: k in sub ==> k in order)
    && (forall i, j :: 0 <= i < j < |order| ==> order[i] != order[j])
  }

  /** The setters a valid configuration calls before the `dbcp.` settings. */
  function BaseSettings(context: Context): map<string, Setting>
  {
    map["setDriverClassName" := Nullable(Get(context, DriverKey)),
        "setUrl" := Nullable(Get(context, ConnectionStringKey)),
        "setUsername" := Nullable(Get(context, UserKey)),
        "setPassword" := Nullable(Get(context, PasswordKey))]
  }

  /** The setters' values after a successful `initialize`. */
  function Configured(methods: seq<Method>, context: Context, order: seq<string>): map<string, Setting>
    requires KeyOrder(order, SubProperties(context, DbcpPrefix))
  {
    ApplyKeys(methods, BaseSettings(context), order, SubProperties(context, DbcpPrefix))["setDefaultAutoCommit" := BoolVal(false)]
  }

  /** The auto-commit mode of the pool's connections: the last value given to
      `setDefaultAutoCommit`, true (DBCP's default) when none was. */
  function AutoCommitOf(props: map<string, Setting>): bool
  {
    var name := "setDefaultAutoCommit";
    if name in props && props[name].BoolVal? then props[name].b else true
  }

  // ---- properties of the configuration ----

  lemma {:induction false} InvokedIsFirstSupportedSetter(methods: seq<Method>, name: string, value: string, k: nat)
    requires k < |methods| && methods[k].name == name && |methods[k].params| > 0 && methods[k].params[0] != OtherParam
    requires forall j :: 0 <= j < k ==> methods[j].name != name || |methods[j].params| == 0 || methods[j].params[0] == OtherParam
    ensures Invoked(methods, name, value) == Coerce(methods[k].params[0], value)
    decreases k
  {
    if k > 0 {
      InvokedIsFirstSupportedSetter(methods[1..], name, value, k - 1);
    }
  }

  /** A key that names no setter leaves the pool as it was and only warns. */
  lemma {:induction false} InvokedNeedsSetter(methods: seq<Method>, name: string, value: string)
    requires forall j :: 0 <= j < |methods| ==> methods[j].name != name
    ensures Invoked(methods, name, value) == None
    decreases |methods|
  {
    if methods != [] {
      InvokedNeedsSetter(methods[1..], name, value);
    }
  }

  /** When every method of a name takes the same supported type first, the search invokes
      that setter with the value parsed as that type, wherever reflection lists it. */
  lemma {:induction false} InvokedSoleSetter(methods: seq<Method>, name: string, param: ParamType, value: string)
    requires param != OtherParam
    requires exists j :: 0 <= j < |methods| && methods[j].name == name
    requires forall j :: 0 <= j < |methods| && methods[j].name == name ==> methods[j].params == [param]
    ensures Invoked(methods, name, value) == Coerce(param, value)
    decreases |methods|
  {
    if methods[0].name != name {
      var j :| 0 <= j < |methods| && methods[j].name == name;
      assert methods[1..][j - 1] == methods[j];
      InvokedSoleSetter(methods[1..], name, param, value);
    }
  }

  /** A `dbcp.` setting reaches exactly the setter named after it: `maxWait` goes to
      `setMaxWait(long)`, DBCP's only method of that name, and is parsed as a long, so a value
      that is no long only warns. */
  lemma MaxWaitSetting(methods: seq<Method>, value: string)
    requires Method("setMaxWait", [LongParam]) in methods
    requires forall j :: 0 <= j < |methods| && methods[j].name == "setMaxWait" ==> methods[j].params == [LongParam]
    ensures KeySetting(methods, "maxWait", value) == if ParseLong(value).Some? then Some(LongVal(ParseLong(value).value)) else None
  {
    assert SetterName("maxWait") == "setMaxWait";
    var k :| 0 <= k < |methods| && methods[k] == Method("setMaxWait", [LongParam]);
    InvokedSoleSetter(methods, "setMaxWait", LongParam, value);
  }

  lemma {:induction false} ApplyNothing(props: map<string, Setting>, changes: seq<Change>)
    requires forall i :: 0 <= i < |changes| ==> changes[i].setting.None?
    ensures Apply(props, changes) == props
    decreases |changes|
  {
    if changes != [] {
      ApplyNothing(props, changes[..|changes| - 1]);
    }
  }

  lemma {:induction false} ApplyFrame(props: map<string, Setting>, changes: seq<Change>, name: string)
    requires forall i :: 0 <= i < |changes| ==> changes[i].setter != name
    ensures name in Apply(props, changes) <==> name in props
    ensures name in props ==> Apply(props, changes)[name] == props[name]
    decreases |changes|
  {
    if changes != [] {
      ApplyFrame(props, changes[..|changes| - 1], name);
    }
  }

  lemma {:induction false} ApplyLast(props: map<string, Setting>, changes: seq<Change>, i: nat)
    requires i < |changes| && changes[i].setting.Some?
    requires forall j :: i < j < |changes| ==> changes[j].setter != changes[i].setter || changes[j].setting.None?
    ensures changes[i].setter in Apply(props, changes) && Apply(props, changes)[changes[i].setter] == changes[i].setting.value
    decreases |changes|
  {
    var n := |changes| - 1;
    var pre := changes[..n];
    if i < n {
      assert forall j :: 0 <= j < n ==> pre[j] == changes[j];
      ApplyLast(props, pre, i);
    }
  }

  lemma {:induction false} SkippedSpec(changes: seq<Change>)
    ensures forall k :: k in Skipped(changes) <==> exists i :: 0 <= i < |changes| && changes[i].key == k && changes[i].setting.None?
    decreases |changes|
  {
    if changes != [] {
      var n := |changes| - 1;
      var pre := changes[..n];
      SkippedSpec(pre);
      assert forall i :: 0 <= i < n ==> pre[i] == changes[i];
    }
  }

  /** Settings that only warn change nothing. */
  lemma UnappliedKeysChangeNothing(methods: seq<Method>, props: map<string, Setting>, keys: seq<string>, sub: map<string, string>)
    requires forall i :: 0 <= i < |keys| ==> keys[i] in sub
    requires forall i :: 0 <= i < |keys| ==> KeySetting(methods, keys[i], sub[keys[i]]).None?
    ensures ApplyKeys(methods, props, keys, sub) == props
  {
    ApplyNothing(props, Changes(methods, keys, sub));
  }

  /** The settings touch only the setters they are named after. */
  lemma ApplyKeysFrame(methods: seq<Method>, props: map<string, Setting>, keys: seq<string>, sub: map<string, string>, name: string)
    requires forall i :: 0 <= i < |keys| ==> keys[i] in sub
    requires forall i :: 0 <= i < |keys| ==> SetterName(keys[i]) != name
    ensures name in ApplyKeys(methods, props, keys, sub) <==> name in props
    ensures name in props ==> ApplyKeys(methods, props, keys, sub)[name] == props[name]
  {
    ApplyFrame(props, Changes(methods, keys, sub), name);
  }

  /** A setter ends up with the value of the last setting that reached it. */
  lemma LastSettingWins(methods: seq<Method>, props: map<string, Setting>, keys: seq<string>, sub: map<string, string>, i: nat)
    requires forall j :: 0 <= j < |keys| ==> keys[j] in sub
    requires i < |keys| && KeySetting(methods, keys[i], sub[keys[i]]).Some?
    requires forall j :: i < j < |keys| ==> SetterName(keys[j]) != SetterName(keys[i]) || KeySetting(methods, keys[j], sub[keys[j]]).None?
    ensures SetterName(keys[i]) in ApplyKeys(methods, props, keys, sub)
    ensures ApplyKeys(methods, props, keys, sub)[SetterName(keys[i])] == KeySetting(methods, keys[i], sub[keys[i]]).value
  {
    var cs := Changes(methods, keys, sub);
    assert forall j :: 0 <= j < |keys| ==> cs[j] == Change(keys[j], SetterName(keys[j]), KeySetting(methods, keys[j], sub[keys[j]]));
    ApplyLast(props, cs, i);
  }

  /** The keys reported as not set are exactly those whose setting only warned. */
  lemma UnappliedSpec(methods: seq<Method>, keys: seq<string>, sub: map<string, string>)
    requires forall i :: 0 <= i < |keys| ==> keys[i] in sub
    ensures forall k :: k in Unapplied(methods, keys, sub) <==> k in keys && KeySetting(methods, k, sub[k]).None?
  {
    var cs := Changes(methods, keys, sub);
    assert forall j :: 0 <= j < |keys| ==> cs[j] == Change(keys[j], SetterName(keys[j]), KeySetting(methods, keys[j], sub[keys[j]]));
    SkippedSpec(cs);
  }

  /** Whatever the `dbcp.` keys said, the configured pool hands out connections with
      auto-commit off, and keeps the driver and URL the sink was given unless a `dbcp.` key
      names their setters. */
  lemma ConfiguredPool(methods: seq<Method>, context: Context, order: seq<string>)
    requires KeyOrder(order, SubProperties(context, DbcpPrefix))
    requires forall i :: 0 <= i < |order| ==> SetterName(order[i]) != "setUrl"
    ensures !AutoCommitOf(Configured(methods, context, order))
    ensures "setUrl" in Configured(methods, context, order)
    ensures Configured(methods, context, order)["setUrl"] == Nullable(Get(context, ConnectionStringKey))
  {
    ApplyKeysFrame(methods, BaseSettings(context), order, SubProperties(context, DbcpPrefix), "setUrl");
  }

  /** A connection borrowed from the pool. */
  datatype Connection = Connection(autoCommit: bool)

  /** DBCP's `BasicDataSource`: the values its setters received, and whether it was closed. */
  class BasicDataSource {
    var props: map<string, Setting>
    var closed: bool

    constructor ()
      ensures props == map[] && !closed
    {
      props := map[];
      closed := false;
    }

    method Set(name: string, value: Setting)
      modifies this
      ensures props == old(props)[name := value] && closed == old(closed)
    {
      props := props[name := value];
    }

    method Close()
      modifies this
      ensures closed && props == old(props)
    {
      closed := true;
    }

    /** The reflective loop of `initialize` for one `dbcp.<key>`: visits the declared methods
        in order and invokes the first setter of that name with a supported parameter type.
        Returns `chkSet`. */
    method ApplySetting(methods: seq<Method>, key: string, value: string) returns (chkSet: bool)
      modifies this
      ensures chkSet <==> KeySetting(methods, key, value).Some?
      ensures props == if chkSet then old(props)[SetterName(key) := KeySetting(methods, key, value).value] else old(props)
      ensures closed == old(closed)
    {
      var name := SetterName(key);
      chkSet := false;
      var i := 0;
      while i < |methods|
        invariant 0 <= i <= |methods|
        invariant Invoked(methods, name, value) == Invoked(methods[i..], name, value)
        invariant props == old(props) && closed == old(closed) && !chkSet
      {
        var m := methods[i];
        assert methods[i..][1..] == methods[i + 1..];
        if |m.params| > 0 && m.name == name {
          var v: Option<Setting> := None;
          match m.params[0] {
            case IntParam =>
              var parsed := ParseInt(value);
              if parsed.None? {
                return;
              }
              v := Some(IntVal(parsed.value));
            case LongParam =>
              var parsed := ParseLong(value);
              if parsed.None? {
                return;
              }
              v := Some(LongVal(parsed.value));
            case BooleanParam =>
              v := Some(BoolVal(ParseBoolean(value)));
            case StringParam =>
              v := Some(Str(value));
            case OtherParam =>
          }
          if v.Some? {
            Set(name, v.value);
            chkSet := true;
            return;
          }
        }
        i := i + 1;
      }
    }

    /** The loop of `initialize` over the `dbcp.` keys, in the order `keys`: each key's setting
        is applied, and the keys whose setting only warned are returned in order. */
    method ApplySettings(methods: seq<Method>, keys: seq<string>, sub: map<string, string>) returns (warned: seq<string>)
      requires forall i :: 0 <= i < |keys| ==> keys[i] in sub
      modifies this
      ensures props == ApplyKeys(methods, old(props), keys, sub)
      ensures warned == Unapplied(methods, keys, sub)
      ensures closed == old(closed)
    {
      warned := [];
      ghost var changes := Changes(methods, keys, sub);
      var i := 0;
      while i < |keys|
        invariant 0 <= i <= |keys|
        invariant closed == old(closed)
        invariant props == Apply(old(props), changes[..i])
        invariant warned == Skipped(changes[..i])
      {
        var key := keys[i];
        assert changes[..i + 1][..i] == changes[..i];
        assert changes[i] == Change(key, SetterName(key), KeySetting(methods, key, sub[key]));
        var chkSet := ApplySetting(methods, key, sub[key]);
        if !chkSet {
          warned := warned + [key];
        }
        i := i + 1;
      }
      assert changes[..i] == changes;
    }

    /** `BasicDataSource.getConnection`: a connection in the pool's default auto-commit mode,
        or the SQLException of a closed pool or of a borrow that failed (`borrowed` false). */
    method GetConnection(borrowed: bool) returns (r: Result<Connection, Failure>)
      ensures r.Ok? <==> !closed && borrowed
      ensures r.Ok? ==> r.value.autoCommit == AutoCommitOf(props)
      ensures r.Err? ==> r.error == PoolFailure
    {
      if closed || !borrowed {
        return Err(PoolFailure);
      }
      r := Ok(Connection(AutoCommitOf(props)));
    }
  }

  /** The singleton manager; `datasource` is null until the first `initialize`. */
  class ConnectionManager {
    var datasource: BasicDataSource?

    constructor ()
      ensures datasource == null
    {
      datasource := null;
    }

    /** `initialize`: closes and drops the current pool, installs a new one, and configures it.
        `order` is the iteration order of the `dbcp.` keys and `methods` the pool class's
        declared methods in the order reflection lists them; Java specifies neither order. On
        success it returns the keys that only logged a warning. */
    method Initialize(context: Context, order: seq<string>, methods: seq<Method>) returns (r: Result<seq<string>, Failure>)
      requires KeyOrder(order, SubProperties(context, DbcpPrefix))
      modifies this, datasource
      ensures old(datasource) != null ==> old(datasource).closed && old(datasource).props == old(datasource.props)
      ensures datasource != null && fresh(datasource) && !datasource.closed
      ensures IsNullOrEmpty(Get(context, DriverKey)) || IsNullOrEmpty(Get(context, ConnectionStringKey)) ==>
                r == Err(DriverAndUrlRequired) && datasource.props == map[]
      ensures !IsNullOrEmpty(Get(context, DriverKey)) && !IsNullOrEmpty(Get(context, ConnectionStringKey)) ==>
                && r == Ok(Unapplied(methods, order, SubProperties(context, DbcpPrefix)))
                && datasource.props == Configured(methods, context, order)
                && !AutoCommitOf(datasource.props)
    {
      if datasource != null {
        datasource.Close();
        datasource := null;
      }
      var ds := new BasicDataSource();
      datasource := ds;
      var driver := Get(context, DriverKey);
      var connectionString := Get(context, ConnectionStringKey);
      if IsNullOrEmpty(driver) || IsNullOrEmpty(connectionString) {
        return Err(DriverAndUrlRequired);
      }
      ds.Set("setDriverClassName", Str(driver.value));
      ds.Set("setUrl", Str(connectionString.value));
      ds.Set("setUsername", Nullable(Get(context, UserKey)));
      ds.Set("setPassword", Nullable(Get(context, PasswordKey)));
      var jdbcProperties := SubProperties(context, DbcpPrefix);
      assert ds.props == BaseSettings(context);
      var warned := ds.ApplySettings(methods, order, jdbcProperties);
      ghost var applied := ds.props;
      ds.Set("setDefaultAutoCommit", BoolVal(false));
      assert ds.props == applied["setDefaultAutoCommit" := BoolVal(false)];
      r := Ok(warned);
    }

    /** `getDatasource`: the pool, or "not initialized" while there is none. */
    method GetDatasource() returns (r: Result<BasicDataSource, Failure>)
      ensures datasource == null ==> r == Err(NotInitialized)
      ensures datasource != null ==> r == Ok(datasource)
    {
      if datasource == null {
        return Err(NotInitialized);
      }
      r := Ok(datasource);
    }

    /** What `getConnection` gives in the current state, `borrowed` saying whether the pool
        manages to lend a connection. */
    function Borrowed(borrowed: bool): Result<Connection, Failure>
      reads this, datasource
    {
      if datasource == null then Err(NotInitialized)
      else if datasource.closed || !borrowed then Err(PoolFailure)
      else Ok(Connection(AutoCommitOf(datasource.props)))
    }

    /** `getConnection`: "not initialized" while there is no pool, otherwise what the pool's
        `getConnection` gives. */
    method GetConnection(borrowed: bool) returns (r: Result<Connection, Failure>)
      ensures datasource == null ==> r == Err(NotInitialized)
      ensures datasource != null ==>
                && (r.Ok? <==> !datasource.closed && borrowed)
                && (r.Ok? ==> r.value.autoCommit == AutoCommitOf(datasource.props))
                && (r.Err? ==> r.error == PoolFailure)
      ensures r == Borrowed(borrowed)
    {
      if datasource == null {
        return Err(NotInitialized);
      }
      r := datasource.GetConnection(borrowed);
    }
  }
}
