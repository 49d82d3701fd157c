/** The module-level configuration code of src/hurag_webui/__init__.py: load
    `webui-config.yaml`, check the required MariaDB settings, and normalise
    `services.ctx_size`, `mariadb.host` and `mariadb.port` in place. The
    loaded namespace is the `Kernel.Tree` of the document. */
module Config {
  import opened Wrappers
  import opened Text
  import opened Kernel

  /** The namespace for a loaded document: a mapping becomes an object with
      attributes; anything else (`None` for an empty file) has none. */
  function Namespace(doc: Yaml): Attr {
    AttrOf(doc)
  }

  /** `x.name`: fails with `AttributeError` when `x` is not an object or has
      no such attribute. */
  function Get(a: Attr, name: string): (r: Result<Attr>)
    ensures r.Ok? <==> a.Sub? && name in a.t.attrs
  {
    if a.Sub? && name in a.t.attrs then Ok(a.t.attrs[name]) else Err(AttributeError(name))
  }

  /** `x.name = v` on an object. */
  function Set(a: Attr, name: string, v: Attr): (r: Attr)
    requires a.Sub?
    ensures r.Sub? && r.t.attrs == a.t.attrs[name := v]
  {
    Sub(Tree(a.t.attrs[name := v]))
  }

  predicate IsNone(a: Attr) {
    a == Plain(YNull)
  }

  predicate Truthy(a: Attr) {
    a.Sub? || !Falsy(a.v)
  }

  const CtxSizes: seq<string> := ["tiny", "medium", "large"]

  const MissingRequired :=
    "Missing required configurations: mariadb.user, mariadb.password, mariadb.database must be provided."

  /** The required-settings check: returns the `mariadb` object. */
  function Required(root: Attr): Result<Attr> {
    var m :- Get(root, "mariadb");
    var user :- Get(m, "user");
    if IsNone(user) then Err(ValueError(MissingRequired))
    else
      var password :- Get(m, "password");
      if IsNone(password) then Err(ValueError(MissingRequired))
      else
        var database :- Get(m, "database");
        if IsNone(database) then Err(ValueError(MissingRequired))
        else Ok(m)
  }

  /** The `ctx_size` fallback: a value whose lower-case form is not one of
      the three sizes is replaced by `"large"`; an accepted one is left as
      it is. A value without `lower()` fails. */
  function CtxStage(root: Attr): Result<Attr> {
    var services :- Get(root, "services");
    var ctx :- Get(services, "ctx_size");
    if !(ctx.Plain? && ctx.v.YStr?) then Err(AttributeError("lower"))
    else if Lower(ctx.v.s) in CtxSizes then Ok(root)
    else Ok(Set(root, "services", Set(services, "ctx_size", Plain(YStr("large")))))
  }

  /** `mariadb.host` and `mariadb.port` defaults on the `mariadb` object `m`
      (the one reached from `root` throughout). */
  function HostPortStage(root: Attr, m: Attr): Result<Attr>
    requires root.Sub?
  {
    var host :- Get(m, "host");
    var m1 := Set(m, "host", if Truthy(host) then host else Plain(YStr("localhost")));
    var port :- Get(m, "port");
    Ok(Set(root, "mariadb", Set(m1, "port", if Truthy(port) then port else Plain(YInt(3306)))))
  }

  /** The body of the `try`: the checks, then the three in-place updates. */
  function Normalise(root: Attr): Result<Attr> {
    var m :- Required(root);
    var root1 :- CtxStage(root);
    HostPortStage(root1, m)
  }

  const InvalidConfig := "Config file not exists or invalid"

  /** The whole module-level step: a missing or unreadable file (`None`) is
      an error; `ValueError` propagates as it is, and any other error is
      wrapped in `RuntimeError`. */
  function LoadConfig(file: Option<Yaml>): (r: Result<Attr>)
    ensures r.Err? ==> r.error.ValueError? || r.error.RuntimeError?
    ensures file.None? ==> r == Err(RuntimeError(InvalidConfig))
    ensures file.Some? ==> var n := Normalise(Namespace(file.value));
      && (r.Ok? <==> n.Ok?)
      && (n.Ok? ==> r.value == n.value)
      && (n.Err? && n.error.ValueError? ==> r == n)
      && (n.Err? && !n.error.ValueError? ==> r == Err(RuntimeError(InvalidConfig)))
  {
    if file.None? then Err(RuntimeError(InvalidConfig))
    else
      match Normalise(Namespace(file.value))
      case Ok(a) => Ok(a)
      case Err(e) => if e.ValueError? then Err(e) else Err(RuntimeError(InvalidConfig))
  }

  /** `o.name` exists and satisfies `p`. */
  predicate HasAttr(o: Attr, name: string, p: Attr -> bool) {
    Get(o, name).Ok? && p(Get(o, name).value)
  }

  /** A known context size, in any case. */
  predicate KnownSize(a: Attr) {
    a.Plain? && a.v.YStr? && Lower(a.v.s) in CtxSizes
  }

  /** What every loaded configuration satisfies: the three required
      settings are not `None`, `ctx_size` is a known size, and host and
      port are set. */
  predicate ValidConfig(root: Attr) {
    && HasAttr(root, "mariadb", m => HasAttr(m, "user", a => !IsNone(a)) && HasAttr(m, "password", a => !IsNone(a))
                                  && HasAttr(m, "database", a => !IsNone(a))
                                  && HasAttr(m, "host", Truthy) && HasAttr(m, "port", Truthy))
    && HasAttr(root, "services", s => HasAttr(s, "ctx_size", KnownSize))
  }

  /** The check passes only on a `mariadb` object with the three settings,
      and returns that object. */
  lemma RequiredOk(root: Attr)
    requires Required(root).Ok?
    ensures Get(root, "mariadb") == Required(root)
    ensures var m := Required(root).value;
      HasAttr(m, "user", a => !IsNone(a)) && HasAttr(m, "password", a => !IsNone(a))
      && HasAttr(m, "database", a => !IsNone(a))
  {
  }

  /** The size stage leaves a known size and does not touch `mariadb`. */
  lemma CtxStageOk(root: Attr)
    requires CtxStage(root).Ok?
    ensures var root1 := CtxStage(root).value;
      root1.Sub? && Get(root1, "mariadb") == Get(root, "mariadb")
      && HasAttr(root1, "services", s => HasAttr(s, "ctx_size", KnownSize))
  {
    assert Lower("large") == "large";
  }

  /** The host and port stage installs the updated `mariadb` object, with
      both settings truthy, and keeps `services`. */
  lemma HostPortStageOk(root: Attr, m: Attr)
    requires root.Sub? && HostPortStage(root, m).Ok?
    ensures var root2 := HostPortStage(root, m).value;
      && Get(root2, "services") == Get(root, "services")
      && Get(root2, "mariadb").Ok?
      && var m2 := Get(root2, "mariadb").value;
         && HasAttr(m2, "host", Truthy) && HasAttr(m2, "port", Truthy)
         && (forall name :: name != "host" && name != "port" ==> Get(m2, name) == Get(m, name))
  {
    assert Truthy(Plain(YStr("localhost"))) && Truthy(Plain(YInt(3306)));
  }

  /** Whatever the file says, a configuration that loads is valid: the
      required settings are present, `ctx_size` is a known size and host
      and port are set. */
  lemma LoadedConfigValid(file: Option<Yaml>)
    requires LoadConfig(file).Ok?
    ensures ValidConfig(LoadConfig(file).value)
  {
    var root := Namespace(file.value);
    RequiredOk(root);
    var m := Required(root).value;
    CtxStageOk(root);
    var root1 := CtxStage(root).value;
    HostPortStageOk(root1, m);
    var root2 := HostPortStage(root1, m).value;
    var m2 := Get(root2, "mariadb").value;
    assert Get(m2, "user") == Get(m, "user");
    assert Get(m2, "password") == Get(m, "password");
    assert Get(m2, "database") == Get(m, "database");
  }

  /** A configuration object whose attributes the settings below hold. */
  function MariaDb(user: Yaml, password: Yaml, database: Yaml, host: Yaml, port: Yaml): Attr {
    Sub(Tree(map["user" := Plain(user), "password" := Plain(password), "database" := Plain(database),
                 "host" := Plain(host), "port" := Plain(port)]))
  }

  function Services(ctx: string): Attr {
    Sub(Tree(map["ctx_size" := Plain(YStr(ctx))]))
  }

  function Root(m: Attr, s: Attr): Attr {
    Sub(Tree(map["mariadb" := m, "services" := s]))
  }

  /** A `None` user, password or database raises the `ValueError`, whatever
      else the file says. */
  lemma MissingRequiredRaises(user: Yaml, password: Yaml, database: Yaml, host: Yaml, port: Yaml, ctx: string)
    requires user == YNull || password == YNull || database == YNull
    ensures Normalise(Root(MariaDb(user, password, database, host, port), Services(ctx)))
            == Err(ValueError(MissingRequired))
  {
  }

  /** A missing file, an empty document and a document without the
      `mariadb` settings all fail with `RuntimeError`: only the missing
      values themselves give `ValueError`. */
  lemma NonValueErrorsWrapped(doc: Option<Yaml>)
    requires doc.None? || doc == Some(YNull) || doc == Some(YDict([]))
    ensures LoadConfig(doc) == Err(RuntimeError(InvalidConfig))
  {
  }

  lemma RequiredPresent(user: Yaml, password: Yaml, database: Yaml, host: Yaml, port: Yaml, s: Attr)
    requires user != YNull && password != YNull && database != YNull
    ensures Required(Root(MariaDb(user, password, database, host, port), s))
            == Ok(MariaDb(user, password, database, host, port))
  {
  }

  lemma CtxStageSpec(m: Attr, ctx: string)
    ensures CtxStage(Root(m, Services(ctx)))
            == Ok(Root(m, Services(if Lower(ctx) in CtxSizes then ctx else "large")))
  {
    if Lower(ctx) !in CtxSizes {
      assert Set(Services(ctx), "ctx_size", Plain(YStr("large"))).t.attrs == Services("large").t.attrs;
      assert Set(Root(m, Services(ctx)), "services", Services("large")).t.attrs == Root(m, Services("large")).t.attrs;
    }
  }

  lemma SetHost(user: Yaml, password: Yaml, database: Yaml, host: Yaml, port: Yaml, h: Yaml)
    ensures Set(MariaDb(user, password, database, host, port), "host", Plain(h))
            == MariaDb(user, password, database, h, port)
  {
    assert "host" != "port";
    assert Set(MariaDb(user, password, database, host, port), "host", Plain(h)).t.attrs
      == MariaDb(user, password, database, h, port).t.attrs;
  }

  lemma SetPort(user: Yaml, password: Yaml, database: Yaml, host: Yaml, port: Yaml, p: Yaml)
    ensures Set(MariaDb(user, password, database, host, port), "port", Plain(p))
            == MariaDb(user, password, database, host, p)
  {
    assert Set(MariaDb(user, password, database, host, port), "port", Plain(p)).t.attrs
      == MariaDb(user, password, database, host, p).t.attrs;
  }

  lemma HostPortStageSpec(user: Yaml, password: Yaml, database: Yaml, host: Yaml, port: Yaml, m0: Attr, s: Attr)
    ensures var host' := if Falsy(host) then YStr("localhost") else host;
      var port' := if Falsy(port) then YInt(3306) else port;
      HostPortStage(Root(m0, s), MariaDb(user, password, database, host, port))
        == Ok(Root(MariaDb(user, password, database, host', port'), s))
  {
    var host' := if Falsy(host) then YStr("localhost") else host;
    var port' := if Falsy(port) then YInt(3306) else port;
    var m := MariaDb(user, password, database, host, port);
    assert Get(m, "host") == Ok(Plain(host));
    assert Get(m, "port") == Ok(Plain(port));
    SetHost(user, password, database, host, port, host');
    SetPort(user, password, database, host', port, port');
    var m2 := MariaDb(user, password, database, host', port');
    assert Set(Root(m0, s), "mariadb", m2).t.attrs == Root(m2, s).t.attrs;
  }

  /** On a configuration that has every attribute: the required settings
      are kept; `ctx_size` becomes `"large"` exactly when its lower-case form
      is not `tiny`, `medium` or `large`, and is otherwise kept exactly as
      written (so `"TINY"` stays `"TINY"`); a falsy host becomes
      `"localhost"` and a falsy port `3306`, and truthy ones are kept. */
  lemma NormaliseSpec(user: Yaml, password: Yaml, database: Yaml, host: Yaml, port: Yaml, ctx: string)
    requires user != YNull && password != YNull && database != YNull
    ensures var r := Normalise(Root(MariaDb(user, password, database, host, port), Services(ctx)));
      var ctx' := if Lower(ctx) in CtxSizes then ctx else "large";
      var host' := if Falsy(host) then YStr("localhost") else host;
      var port' := if Falsy(port) then YInt(3306) else port;
      r == Ok(Root(MariaDb(user, password, database, host', port'), Services(ctx')))
  {
    var m := MariaDb(user, password, database, host, port);
    var ctx' := if Lower(ctx) in CtxSizes then ctx else "large";
    RequiredPresent(user, password, database, host, port, Services(ctx));
    CtxStageSpec(m, ctx);
    HostPortStageSpec(user, password, database, host, port, m, Services(ctx'));
  }

  /** The accepted spelling is not lower-cased, although `ctx_size` is
      matched case-insensitively. */
  lemma UpperCaseCtxSizeKept(user: Yaml, password: Yaml, database: Yaml)
    requires user != YNull && password != YNull && database != YNull
    ensures var r := Normalise(Root(MariaDb(user, password, database, YNull, YNull), Services("TINY")));
      r.Ok? && Get(r.value, "services").Ok?
      && Get(Get(r.value, "services").value, "ctx_size") == Ok(Plain(YStr("TINY")))
  {
    assert Lower("TINY") == "tiny";
    NormaliseSpec(user, password, database, YNull, YNull, "TINY");
  }

  /** Normalising twice gives the same configuration as normalising once. */
  lemma NormaliseIdempotent(user: Yaml, password: Yaml, database: Yaml, host: Yaml, port: Yaml, ctx: string)
    requires user != YNull && password != YNull && database != YNull
    ensures var r := Normalise(Root(MariaDb(user, password, database, host, port), Services(ctx)));
      r.Ok? && Normalise(r.value) == r
  {
    NormaliseSpec(user, password, database, host, port, ctx);
    var ctx' := if Lower(ctx) in CtxSizes then ctx else "large";
    var host' := if Falsy(host) then YStr("localhost") else host;
    var port' := if Falsy(port) then YInt(3306) else port;
    assert Lower("large") == "large";
    NormaliseSpec(user, password, database, host', port', ctx');
  }

  /** The module-level configuration holder (`conf`). */
  class Settings {
    var root: Attr

    constructor (doc: Yaml)
      ensures root == Namespace(doc)
    {
      root := Namespace(doc);
    }

    /** The checks and the in-place updates, in source order. */
    method Apply() returns (r: Result<()>)
      modifies this
      ensures var n := Normalise(old(root));
        (r.Ok? <==> n.Ok?) && (n.Err? ==> r.error == n.error) && (n.Ok? ==> root == n.value)
    {
      var m := Required(root);
      if m.Err? { return Err(m.error); }
      var c := ApplyCtxSize();
      if c.Err? { return Err(c.error); }
      r := ApplyHostPort(m.value);
    }

    /** The `ctx_size` fallback, in place. */
    method ApplyCtxSize() returns (r: Result<()>)
      modifies this
      ensures var n := CtxStage(old(root));
        (r.Ok? <==> n.Ok?) && (n.Err? ==> r.error == n.error && root == old(root)) && (n.Ok? ==> root == n.value)
    {
      var services := Get(root, "services");
      if services.Err? { return Err(services.error); }
      var ctx := Get(services.value, "ctx_size");
      if ctx.Err? { return Err(ctx.error); }
      if !(ctx.value.Plain? && ctx.value.v.YStr?) { return Err(AttributeError("lower")); }
      if Lower(ctx.value.v.s) !in CtxSizes {
        root := Set(root, "services", Set(services.value, "ctx_size", Plain(YStr("large"))));
      }
      r := Ok(());
    }

    /** The host and port defaults on the `mariadb` object `m`, in place. */
    method ApplyHostPort(m: Attr) returns (r: Result<()>)
      requires root.Sub?
      modifies this
      ensures var n := HostPortStage(old(root), m);
        (r.Ok? <==> n.Ok?) && (n.Err? ==> r.error == n.error) && (n.Ok? ==> root == n.value)
    {
      var host := Get(m, "host");
      if host.Err? { return Err(host.error); }
      var m1 := Set(m, "host", if Truthy(host.value) then host.value else Plain(YStr("localhost")));
      root := Set(root, "mariadb", m1);
      var port := Get(m, "port");
      if port.Err? { return Err(port.error); }
      root := Set(root, "mariadb", Set(m1, "port", if Truthy(port.value) then port.value else Plain(YInt(3306))));
      r := Ok(());
    }
  }
}
