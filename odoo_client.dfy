/**
 * The read-only client for Odoo's external XML-RPC API: authenticate
 * against `<url>/xmlrpc/2/common`, then `search` and `read` on
 * `product.template` through `<url>/xmlrpc/2/object`.
 *
 * The remote side is an oracle (`Server`): it says whether an XML-RPC proxy
 * can be built for a URI and answers each call with a value or a fault. Every
 * call the client sends is appended to the ghost log `calls`, so that what is
 * and is not sent can be stated.
 */
module Odoo {
  import opened Common
  import opened Text

  /** The XML-RPC values that occur in the exchange. */
  datatype Value = Bool(b: bool) | Int(i: int) | Float(x: real) | Str(s: string)

  /** Python truthiness of a value: false, 0, 0.0 and '' are the only falsy values. */
  function IsTruthy(v: Value): (t: bool)
    ensures !t <==> v == Bool(false) || v == Int(0) || v == Float(0.0) || v == Str("")
  {
    match v
    case Bool(b) => b
    case Int(i) => i != 0
    case Float(x) => x != 0.0
    case Str(s) => s != ""
  }

  /** A record as `read` returns it, and the product dictionary the client builds. */
  type Record = map<string, Value>

  /** The answer to one remote call: a value, or the fault it raised. */
  datatype Reply<T> = Ok(value: T) | Fault(message: string)

  /** One search criterion `[field, operator, operand]`. */
  datatype Criterion = Criterion(field: string, operator: string, operand: Value)

  /** The positional arguments and keyword arguments of an `execute_kw` call. */
  datatype Params =
    | SearchArgs(domain: seq<Criterion>)
    | ReadArgs(ids: seq<int>, fields: seq<string>)

  /** A remote call as it is sent, with the endpoint it goes to. */
  datatype Call =
    | Login(endpoint: string, db: string, login: string, password: string)
    | ExecuteKw(endpoint: string, db: string, uid: Value, password: string,
                model: string, methodName: string, params: Params)

  /**
   * The remote side. `accepts(uri)` is whether `ServerProxy(uri)` can be
   * built; the other three answer an `authenticate`, a `search` and a `read`
   * call (they are only ever given calls of that kind).
   */
  datatype Server = Server(
    accepts: string -> bool,
    authenticate: Call -> Reply<Value>,
    search: Call -> Reply<seq<int>>,
    read: Call -> Reply<seq<Record>>)

  /** What the client was constructed with. */
  datatype Settings = Settings(url: string, db: string, username: string, password: string)

  /** The two fields `authenticate` assigns: `uid`, and the object endpoint `models` is a proxy for. */
  datatype Session = Session(uid: Option<Value>, models: Option<string>)

  const ProductModel: string := "product.template"

  /** The fields the read asks for, in the order it asks for them. */
  const ProductFields: seq<string> :=
    ["name", "list_price", "barcode", "default_code", "immediately_usable_qty"]

  /** The value each product field gets when the record lacks it. */
  const Defaults: map<string, Value> := map[
    "name" := Str(""),
    "list_price" := Float(0.0),
    "barcode" := Str(""),
    "default_code" := Str(""),
    "immediately_usable_qty" := Float(0.0)]

  function CommonEndpoint(url: string): string { url + "/xmlrpc/2/common" }

  function ObjectEndpoint(url: string): string { url + "/xmlrpc/2/object" }

  function LoginCall(cfg: Settings): Call
  {
    Login(CommonEndpoint(cfg.url), cfg.db, cfg.username, cfg.password)
  }

  /** The search domain: `barcode = <input>` and `active = True`. */
  function BarcodeDomain(barcode: string): seq<Criterion>
  {
    [Criterion("barcode", "=", Str(barcode)), Criterion("active", "=", Bool(true))]
  }

  function SearchCall(cfg: Settings, s: Session, barcode: string): Call
    requires s.uid.Some? && s.models.Some?
  {
    ExecuteKw(s.models.value, cfg.db, s.uid.value, cfg.password, ProductModel, "search",
              SearchArgs(BarcodeDomain(barcode)))
  }

  function ReadCall(cfg: Settings, s: Session, ids: seq<int>): Call
    requires s.uid.Some? && s.models.Some?
  {
    ExecuteKw(s.models.value, cfg.db, s.uid.value, cfg.password, ProductModel, "read",
              ReadArgs(ids, ProductFields))
  }

  /** `d.get(key, default)`. */
  function Get(d: Record, key: string, default: Value): Value
  {
    if key in d then d[key] else default
  }

  /**
   * The dictionary built from the first record read: exactly the five
   * requested fields, each copied from the record and defaulted only when
   * the record lacks that key.
   */
  function ShapeProduct(p: Record): (r: Record)
    ensures r.Keys == set f | f in ProductFields
    ensures forall k :: k in r ==> r[k] == if k in p then p[k] else Defaults[k]
  {
    map[
      "name" := Get(p, "name", Str("")),
      "list_price" := Get(p, "list_price", Float(0.0)),
      "barcode" := Get(p, "barcode", Str("")),
      "default_code" := Get(p, "default_code", Str("")),
      "immediately_usable_qty" := Get(p, "immediately_usable_qty", Float(0.0))]
  }

  /** Only the authenticate call and `search`/`read` on `product.template` are sent. */
  predicate ReadOnly(calls: seq<Call>)
  {
    forall i :: 0 <= i < |calls| ==>
      calls[i].Login? ||
      (calls[i].model == ProductModel && (calls[i].methodName == "search" || calls[i].methodName == "read"))
  }

  /** What one `authenticate()` returns, the session it leaves and the calls it sends. */
  datatype AuthOutcome = AuthOutcome(ok: bool, session: Session, calls: seq<Call>)

  /**
   * `authenticate()`. It succeeds exactly when both proxies can be built and
   * the server answers with a truthy uid; then `uid` and `models` are set.
   * Any answer (truthy or not) is stored in `uid`; a fault leaves `uid` as it
   * was; `models` changes only on success. At most the one login call is sent.
   */
  function AuthenticateStep(server: Server, cfg: Settings, s: Session): (a: AuthOutcome)
    ensures a.ok <==>
      && server.accepts(CommonEndpoint(cfg.url))
      && server.authenticate(LoginCall(cfg)).Ok?
      && IsTruthy(server.authenticate(LoginCall(cfg)).value)
      && server.accepts(ObjectEndpoint(cfg.url))
    ensures a.ok ==>
      a.session == Session(Some(server.authenticate(LoginCall(cfg)).value), Some(ObjectEndpoint(cfg.url)))
    ensures !a.ok ==> a.session.models == s.models
    ensures a.session.uid ==
      if server.accepts(CommonEndpoint(cfg.url)) && server.authenticate(LoginCall(cfg)).Ok?
      then Some(server.authenticate(LoginCall(cfg)).value) else s.uid
    ensures a.calls == if server.accepts(CommonEndpoint(cfg.url)) then [LoginCall(cfg)] else []
  {
    if !server.accepts(CommonEndpoint(cfg.url)) then
      AuthOutcome(false, s, [])
    else
      var call := LoginCall(cfg);
      match server.authenticate(call)
      case Fault(_) => AuthOutcome(false, s, [call])
      case Ok(uid) =>
        var s' := Session(Some(uid), s.models);
        if !IsTruthy(uid) then AuthOutcome(false, s', [call])
        else if !server.accepts(ObjectEndpoint(cfg.url)) then AuthOutcome(false, s', [call])
        else AuthOutcome(true, Session(Some(uid), Some(ObjectEndpoint(cfg.url))), [call])
  }

  /** What one `get_product_by_barcode()` returns, the session it leaves and the calls it sends. */
  datatype LookupOutcome = LookupOutcome(product: Option<Record>, session: Session, calls: seq<Call>)

  /**
   * `get_product_by_barcode(barcode)`: authenticate, search, read, shape.
   * Whatever happens, the session is the one authentication left, the calls
   * begin with authentication's and the client stays read-only; a failed
   * authentication returns None and sends nothing more.
   */
  function LookupStep(server: Server, cfg: Settings, s: Session, barcode: string): (l: LookupOutcome)
    ensures l.session == AuthenticateStep(server, cfg, s).session
    ensures AuthenticateStep(server, cfg, s).calls <= l.calls
    ensures ReadOnly(l.calls)
    ensures !AuthenticateStep(server, cfg, s).ok ==>
      l.product == None && l.calls == AuthenticateStep(server, cfg, s).calls
    ensures l.product.Some? ==> l.product.value.Keys == Defaults.Keys
  {
    var a := AuthenticateStep(server, cfg, s);
    if !a.ok then
      LookupOutcome(None, a.session, a.calls)
    else
      var search := SearchCall(cfg, a.session, barcode);
      match server.search(search)
      case Fault(_) => LookupOutcome(None, a.session, a.calls + [search])
      case Ok(ids) =>
        if ids == [] then
          LookupOutcome(None, a.session, a.calls + [search])
        else
          var read := ReadCall(cfg, a.session, ids);
          match server.read(read)
          case Fault(_) => LookupOutcome(None, a.session, a.calls + [search, read])
          case Ok(products) =>
            if products == [] then LookupOutcome(None, a.session, a.calls + [search, read])
            else LookupOutcome(Some(ShapeProduct(products[0])), a.session, a.calls + [search, read])
  }

  /**
   * A product is returned exactly when authentication succeeds, the search
   * finds at least one id, and reading ALL the ids found gives at least one
   * record; the product is built from the first record read.
   */
  lemma FoundExactly(server: Server, cfg: Settings, s: Session, barcode: string)
    ensures var a := AuthenticateStep(server, cfg, s);
      var l := LookupStep(server, cfg, s, barcode);
      l.product.Some? <==>
        && a.ok
        && server.search(SearchCall(cfg, a.session, barcode)).Ok?
        && |server.search(SearchCall(cfg, a.session, barcode)).value| > 0
        && server.read(ReadCall(cfg, a.session, server.search(SearchCall(cfg, a.session, barcode)).value)).Ok?
        && |server.read(ReadCall(cfg, a.session, server.search(SearchCall(cfg, a.session, barcode)).value)).value| > 0
    ensures var a := AuthenticateStep(server, cfg, s);
      var l := LookupStep(server, cfg, s, barcode);
      l.product.Some? ==>
        l.product.value ==
          ShapeProduct(server.read(ReadCall(cfg, a.session, server.search(SearchCall(cfg, a.session, barcode)).value)).value[0])
  {
  }

  /** The search is on `product.template`, by barcode among active products. */
  lemma SearchesActiveByBarcode(server: Server, cfg: Settings, s: Session, barcode: string)
    requires AuthenticateStep(server, cfg, s).ok
    ensures var l := LookupStep(server, cfg, s, barcode);
      |l.calls| >= 2 && l.calls[1].ExecuteKw? && l.calls[1].model == ProductModel &&
      l.calls[1].methodName == "search" && l.calls[1].params == SearchArgs(BarcodeDomain(barcode))
  {
  }

  /** An empty search is "not found", and no read is sent. */
  lemma EmptySearchSendsNoRead(server: Server, cfg: Settings, s: Session, barcode: string)
    requires AuthenticateStep(server, cfg, s).ok
    requires server.search(SearchCall(cfg, AuthenticateStep(server, cfg, s).session, barcode)) == Ok([])
    ensures var l := LookupStep(server, cfg, s, barcode);
      l.product == None && forall i :: 0 <= i < |l.calls| ==> !(l.calls[i].ExecuteKw? && l.calls[i].methodName == "read")
  {
  }

  /** A fault of the search or of the read gives None; it is never passed on. */
  lemma FaultGivesNone(server: Server, cfg: Settings, s: Session, barcode: string)
    requires AuthenticateStep(server, cfg, s).ok
    requires var search := server.search(SearchCall(cfg, AuthenticateStep(server, cfg, s).session, barcode));
      search.Fault? ||
      (search.value != [] && server.read(ReadCall(cfg, AuthenticateStep(server, cfg, s).session, search.value)).Fault?)
    ensures LookupStep(server, cfg, s, barcode).product == None
  {
  }

  /** An empty read result gives None. */
  lemma EmptyReadGivesNone(server: Server, cfg: Settings, s: Session, barcode: string)
    requires AuthenticateStep(server, cfg, s).ok
    requires var search := server.search(SearchCall(cfg, AuthenticateStep(server, cfg, s).session, barcode));
      search.Ok? && search.value != [] &&
      server.read(ReadCall(cfg, AuthenticateStep(server, cfg, s).session, search.value)) == Ok([])
    ensures LookupStep(server, cfg, s, barcode).product == None
  {
  }

  /**
   * The result does not depend on what earlier calls left in `uid` and
   * `models`: each lookup re-authenticates and is re-derived from the server.
   */
  lemma LookupIgnoresEarlierSession(server: Server, cfg: Settings, s1: Session, s2: Session, barcode: string)
    ensures LookupStep(server, cfg, s1, barcode).product == LookupStep(server, cfg, s2, barcode).product
    ensures LookupStep(server, cfg, s1, barcode).calls == LookupStep(server, cfg, s2, barcode).calls
  {
  }

  /** A field present in the record read is returned verbatim. */
  lemma PresentFieldsVerbatim(p: Record, k: string)
    requires k in ProductFields && k in p
    ensures k in ShapeProduct(p) && ShapeProduct(p)[k] == p[k]
  {
  }

  /** A server whose catalog holds one active product, id 7, under `"7501234567890"`. */
  function ArrozServer(): Server
  {
    Server(
      (uri: string) => true,
      (call: Call) => Ok(Int(2)),
      (call: Call) => if call.ExecuteKw? && call.params == SearchArgs(BarcodeDomain("7501234567890")) then Ok([7]) else Ok([]),
      (call: Call) => if call.ExecuteKw? && call.params.ReadArgs? && call.params.ids == [7] then Ok([ArrozRecord]) else Ok([]))
  }

  /** The record `read` returns for product 7, with its id. */
  const ArrozRecord: Record := map[
    "id" := Int(7), "name" := Str("Arroz 1kg"), "list_price" := Float(2.50),
    "barcode" := Str("7501234567890"), "default_code" := Str("AR-001"),
    "immediately_usable_qty" := Float(42.0)]

  const Kiosk: Settings := Settings("https://erp.example.com", "puya", "kiosk", "secret")

  /** The matching product comes back with its five fields and without its id. */
  lemma ArrozScenario()
    ensures LookupStep(ArrozServer(), Kiosk, Session(None, None), "7501234567890").product == Some(map[
      "name" := Str("Arroz 1kg"), "list_price" := Float(2.50), "barcode" := Str("7501234567890"),
      "default_code" := Str("AR-001"), "immediately_usable_qty" := Float(42.0)])
  {
    var server, code := ArrozServer(), "7501234567890";
    var a := AuthenticateStep(server, Kiosk, Session(None, None));
    assert a.ok && a.session == Session(Some(Int(2)), Some(ObjectEndpoint(Kiosk.url)));
    var search := SearchCall(Kiosk, a.session, code);
    assert server.search(search) == Ok([7]);
    assert server.read(ReadCall(Kiosk, a.session, [7])) == Ok([ArrozRecord]);
    FoundExactly(server, Kiosk, Session(None, None), code);
    var expected := map[
      "name" := Str("Arroz 1kg"), "list_price" := Float(2.50), "barcode" := Str("7501234567890"),
      "default_code" := Str("AR-001"), "immediately_usable_qty" := Float(42.0)];
    var shaped := ShapeProduct(ArrozRecord);
    assert shaped.Keys == expected.Keys;
    assert shaped == expected;
  }

  /** A code that matches nothing is not found, after one login and one search. */
  lemma UnknownCodeScenario()
    ensures var l := LookupStep(ArrozServer(), Kiosk, Session(None, None), "000");
      && l.product == None && |l.calls| == 2
      && l.calls[0].Login?
      && l.calls[1].ExecuteKw? && l.calls[1].methodName == "search"
  {
    assert BarcodeDomain("000") != BarcodeDomain("7501234567890");
  }

  /** The client: its four settings, the `uid`/`models` pair and the log of calls sent. */
  class OdooClient {
    const url: string
    const db: string
    const username: string
    const password: string
    var uid: Option<Value>
    var models: Option<string>
    ghost var calls: seq<Call>

    function Config(): Settings
    {
      Settings(url, db, username, password)
    }

    function CurrentSession(): Session
      reads this
    {
      Session(uid, models)
    }

    /** The URL is kept without its trailing slashes; nothing is authenticated yet. */
    constructor (url: string, db: string, username: string, password: string)
      ensures this.url == RStripChar(url, '/')
      ensures this.db == db && this.username == username && this.password == password
      ensures uid == None && models == None && calls == []
    {
      this.url := RStripChar(url, '/');
      this.db := db;
      this.username := username;
      this.password := password;
      uid := None;
      models := None;
      calls := [];
    }

    method Authenticate(server: Server) returns (ok: bool)
      modifies this
      ensures var a := AuthenticateStep(server, Config(), old(CurrentSession()));
        ok == a.ok && CurrentSession() == a.session && calls == old(calls) + a.calls
    {
      var common := CommonEndpoint(url);
      if !server.accepts(common) {
        return false;
      }
      var call := Login(common, db, username, password);
      calls := calls + [call];
      var answer := server.authenticate(call);
      if answer.Fault? {
        return false;
      }
      uid := Some(answer.value);
      if !IsTruthy(answer.value) {
        return false;
      }
      var objectUri := ObjectEndpoint(url);
      if !server.accepts(objectUri) {
        return false;
      }
      models := Some(objectUri);
      return true;
    }

    method GetProductByBarcode(server: Server, barcode: string) returns (product: Option<Record>)
      modifies this
      ensures var l := LookupStep(server, Config(), old(CurrentSession()), barcode);
        product == l.product && CurrentSession() == l.session && calls == old(calls) + l.calls
    {
      var ok := Authenticate(server);
      if !ok {
        return None;
      }
      var search := ExecuteKw(models.value, db, uid.value, password, ProductModel, "search",
                              SearchArgs(BarcodeDomain(barcode)));
      calls := calls + [search];
      var found := server.search(search);
      if found.Fault? {
        return None;
      }
      var ids := found.value;
      if ids != [] {
        var read := ExecuteKw(models.value, db, uid.value, password, ProductModel, "read",
                              ReadArgs(ids, ProductFields));
        calls := calls + [read];
        var products := server.read(read);
        if products.Fault? {
          return None;
        }
        if products.value != [] {
          return Some(ShapeProduct(products.value[0]));
        }
      }
      return None;
    }
  }
}
