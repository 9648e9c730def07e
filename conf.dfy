/**
 * The settings store of mediasync/conf.py: one process-wide dictionary of
 * options, pre-filled with defaults, and a `Settings` facade whose every
 * instance reads and writes that same dictionary.
 */
module Conf {
  import W = Wrappers

  /** A setting's value; the store does no type checking. */
  datatype Value =
    | None
    | Bool(b: bool)
    | Int(i: int)
    | Str(s: string)
    | Dict(entries: map<string, Value>)
    | Tuple(items: seq<Value>)
    | Callable(name: string)   // a function supplied by other code, known by name only

  /** Python truthiness, as `or` and `not` use it. */
  predicate Truthy(v: Value)
  {
    match v
    case None => false
    case Bool(b) => b
    case Int(i) => i != 0
    case Str(s) => s != ""
    case Dict(m) => m != map[]
    case Tuple(items) => items != []
    case Callable(_) => true
  }

  /** `a or b`. */
  function Or(a: Value, b: Value): (r: Value)
    ensures Truthy(a) ==> r == a
    ensures !Truthy(a) ==> r == b
  {
    if Truthy(a) then a else b
  }

  /**
   * The host settings the defaults are computed from. conf.py reads
   * `django.conf.settings` on its own, as raw values, so this is the same
   * input as `Media.HostSettings`, seen as conf.py sees it.
   */
  datatype HostSettings = HostSettings(staticRoot: Value, mediaRoot: Value, staticUrl: Value, mediaUrl: Value, debug: Value)

  /** The names of the options the store starts with. */
  const DefaultKeys: set<string> := {
    "CSS_PATH", "DOCTYPE", "EMULATE_COMBO", "EXPIRATION_DAYS", "JOINED", "JS_PATH",
    "STATIC_ROOT", "STATIC_URL", "PROCESSORS", "SERVE_REMOTE", "URL_PROCESSOR"}

  /** `_settings` as the module first builds it. */
  function Defaults(host: HostSettings): (d: map<string, Value>)
    ensures d.Keys == DefaultKeys
  {
    map[
      "CSS_PATH" := Str(""),
      "DOCTYPE" := Str("html5"),
      "EMULATE_COMBO" := Bool(false),
      "EXPIRATION_DAYS" := Int(365),
      "JOINED" := Dict(map[]),
      "JS_PATH" := Str(""),
      "STATIC_ROOT" := Or(host.staticRoot, host.mediaRoot),
      "STATIC_URL" := Or(host.staticUrl, host.mediaUrl),
      "PROCESSORS" := Tuple([Callable("slim.css_minifier"), Callable("slim.js_minifier")]),
      "SERVE_REMOTE" := Bool(!Truthy(host.debug)),
      "URL_PROCESSOR" := Callable("lambda x: x")]
  }

  /** The entries the source spells out: the expiration, the doctype and the computed roots. */
  lemma DefaultEntries(host: HostSettings)
    ensures Defaults(host)["EXPIRATION_DAYS"] == Int(365)
    ensures Defaults(host)["DOCTYPE"] == Str("html5")
    ensures Defaults(host)["STATIC_ROOT"] == if Truthy(host.staticRoot) then host.staticRoot else host.mediaRoot
    ensures Defaults(host)["STATIC_URL"] == if Truthy(host.staticUrl) then host.staticUrl else host.mediaUrl
    ensures Defaults(host)["SERVE_REMOTE"] == Bool(!Truthy(host.debug))
  {
  }

  /** Raised when deleting an option the store does not hold. */
  datatype KeyError = KeyError(key: string)

  /** The module-global dictionary `_settings`. */
  class Store {
    var entries: map<string, Value>

    constructor (host: HostSettings)
      ensures entries == Defaults(host)
    {
      entries := Defaults(host);
    }
  }

  /** `Settings`: a view of the shared store. */
  class Settings {
    const store: Store

    /** `Settings(conf)`: writes each option of `conf` into the shared store. */
    constructor (shared: Store, conf: map<string, Value>)
      modifies shared
      ensures store == shared
      ensures shared.entries == old(shared.entries) + conf
    {
      store := shared;
      new;
      var pending := conf.Keys;
      while pending != {}
        invariant pending <= conf.Keys
        invariant store == shared
        invariant shared.entries == old(shared.entries) + (map k | k in conf.Keys - pending :: conf[k])
        decreases pending
      {
        var k :| k in pending;
        Set(k, conf[k]);
        pending := pending - {k};
      }
      assert conf.Keys - pending == conf.Keys;
      assert (map k | k in conf.Keys :: conf[k]) == conf;
    }

    /** `del s[name]`: removes the option, or raises `KeyError` when it is absent. */
    method Delete(name: string) returns (r: W.Outcome<KeyError>)
      modifies store
      ensures name in old(store.entries) ==> r == W.Pass && store.entries == old(store.entries) - {name}
      ensures name !in old(store.entries) ==> r == W.Fail(KeyError(name)) && store.entries == old(store.entries)
    {
      if name in store.entries {
        store.entries := store.entries - {name};
        r := W.Pass;
      } else {
        r := W.Fail(KeyError(name));
      }
    }

    /** `s[name]`: the stored value, or `None` when the option is absent. */
    function Item(name: string): (v: Value)
      reads this, store
      ensures name in store.entries ==> v == store.entries[name]
      ensures name !in store.entries ==> v == None
    {
      Get(name, None)
    }

    /** `s[name] = val`: the option now holds `val`; every other option keeps its value. */
    method Set(name: string, val: Value)
      modifies store
      ensures store.entries == old(store.entries)[name := val]
    {
      store.entries := store.entries[name := val];
    }

    /** `s.get(name, default)`: the stored value, or `default` when the option is absent. */
    function Get(name: string, default: Value): (v: Value)
      reads this, store
      ensures name in store.entries ==> v == store.entries[name]
      ensures name !in store.entries ==> v == default
    {
      if name in store.entries then store.entries[name] else default
    }
  }

  /*
   * What callers can conclude from the contracts above.
   */

  /** After a write, the option reads back as written and every other option is unchanged. */
  method WriteThenRead(s: Settings, name: string, val: Value, other: string) returns (got: Value, kept: Value)
    requires other != name
    modifies s.store
    ensures got == val
    ensures kept == old(s.Get(other, None))
  {
    s.Set(name, val);
    got := s.Item(name);
    kept := s.Item(other);
  }

  /** Of two writes to one option, the second wins. */
  method LastWriteWins(s: Settings, name: string, first: Value, second: Value) returns (got: Value)
    modifies s.store
    ensures got == second
    ensures s.store.entries == old(s.store.entries)[name := second]
  {
    s.Set(name, first);
    s.Set(name, second);
    got := s.Get(name, None);
  }

  /** A write through one `Settings` is read through every other one. */
  method SharedStore(a: Settings, b: Settings, name: string, val: Value) returns (got: Value)
    requires a.store == b.store
    modifies a.store
    ensures got == val
  {
    a.Set(name, val);
    got := b.Item(name);
  }

  /** Deleting an option makes it read as `None`; deleting it again fails. */
  method DeleteTwice(s: Settings, name: string) returns (first: W.Outcome<KeyError>, second: W.Outcome<KeyError>, got: Value)
    requires name in s.store.entries
    modifies s.store
    ensures first == W.Pass && second == W.Fail(KeyError(name)) && got == None
    ensures s.store.entries == old(s.store.entries) - {name}
  {
    first := s.Delete(name);
    got := s.Item(name);
    second := s.Delete(name);
  }

  /**
   * Constructing `Settings` over a fresh store keeps the defaults the user
   * mapping does not override; for example `EXPIRATION_DAYS` stays 365
   * until it is overridden or written, and reads back 30 once it is set to 30.
   */
  method Startup(host: HostSettings, conf: map<string, Value>) returns (s: Settings, days: Value, doctype: Value, after: Value)
    requires "EXPIRATION_DAYS" !in conf && "DOCTYPE" !in conf
    ensures fresh(s) && fresh(s.store)
    ensures forall k :: k in conf ==> s.Get(k, None) == conf[k]
    ensures days == Int(365) && doctype == Str("html5")
    ensures after == Int(30)
  {
    var store := new Store(host);
    s := new Settings(store, conf);
    days := s.Item("EXPIRATION_DAYS");
    doctype := s.Get("DOCTYPE", None);
    s.Set("EXPIRATION_DAYS", Int(30));
    after := s.Item("EXPIRATION_DAYS");
  }
}
