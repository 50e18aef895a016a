/**
 * Base-URL configuration: the persisted key/value store entry
 * `API_BASE_URL` and the shared client's `baseURL`.
 *
 * The pure part describes the configuration as a value (`Config`) and each
 * operation as a transition on it; the `Settings` class performs the same
 * operations in place and is proved to follow those transitions.
 */
module BaseUrl {
  import opened Wrappers
  import Http

  /** The storage key under which the base URL is persisted. */
  const Key: string := "API_BASE_URL"

  /** Storage `getItem`: the stored string, or nothing when the key is absent. */
  function GetItem(store: map<string, string>, key: string): (r: Option<string>)
    ensures r.Some? <==> key in store
    ensures r.Some? ==> r.value == store[key]
  {
    if key in store then Some(store[key]) else None
  }

  /** Storage `setItem`: `key` now holds `value`; every other entry is as before. */
  function SetItem(store: map<string, string>, key: string, value: string): (r: map<string, string>)
    ensures key in r && r[key] == value
    ensures r.Keys == store.Keys + {key}
    ensures forall k :: k in store && k != key ==> r[k] == store[k]
  {
    store[key := value]
  }

  /** JavaScript truthiness of a string: only the empty string is falsy. */
  predicate Truthy(s: string) {
    s != ""
  }

  /** The persisted store together with the client's current target. */
  datatype Config = Config(store: map<string, string>, baseURL: string)

  /**
   * `getApiBaseUrl`: the stored value when the key is present (even when it is
   * the empty string), otherwise the compiled-in default `env`.
   */
  function Get(c: Config, env: string): (url: string)
    ensures Key in c.store ==> url == c.store[Key]
    ensures Key !in c.store ==> url == env
  {
    GetItem(c.store, Key).GetOr(env)
  }

  /** `setApiBaseUrl(url)`: persist `url` and repoint the client at it. */
  function Set(c: Config, url: string): (d: Config)
    ensures d.baseURL == url
    ensures Key in d.store && d.store[Key] == url
    ensures d.store.Keys == c.store.Keys + {Key}
    ensures forall k :: k in c.store && k != Key ==> d.store[k] == c.store[k]
  {
    Config(SetItem(c.store, Key, url), url)
  }

  /**
   * `hydrateApiBaseUrl`: point the client at the stored value when it is
   * present and non-empty, otherwise at the default `env`; the store is
   * left alone.
   */
  function Hydrate(c: Config, env: string): (d: Config)
    ensures d.store == c.store
    ensures Key in c.store && c.store[Key] != "" ==> d.baseURL == c.store[Key]
    ensures Key !in c.store || c.store[Key] == "" ==> d.baseURL == env
  {
    var base := GetItem(c.store, Key);
    if base.Some? && Truthy(base.value) then c.(baseURL := base.value) else c.(baseURL := env)
  }

  /** The value stored by `setApiBaseUrl` is exactly what `getApiBaseUrl` reads back, `""` included. */
  lemma SetThenGet(c: Config, url: string, env: string)
    ensures Get(Set(c, url), env) == url
  {
  }

  /** Reading the base URL depends on the store alone, so hydrating does not change it. */
  lemma HydrateKeepsGet(c: Config, env: string)
    ensures Get(Hydrate(c, env), env) == Get(c, env)
  {
  }

  /** Hydrating twice in a row leaves the same configuration as hydrating once. */
  lemma HydrateIdempotent(c: Config, env: string)
    ensures Hydrate(Hydrate(c, env), env) == Hydrate(c, env)
  {
  }

  /** After saving a non-empty URL, hydrating keeps the client on that URL. */
  lemma SetThenHydrate(c: Config, url: string, env: string)
    requires url != ""
    ensures Hydrate(Set(c, url), env) == Set(c, url)
  {
  }

  /** After saving the empty URL, hydrating moves the client to the default. */
  lemma SetEmptyThenHydrate(c: Config, env: string)
    ensures Hydrate(Set(c, ""), env).baseURL == env
    ensures Get(Set(c, ""), env) == ""
  {
  }

  /** A later save overrides an earlier one completely. */
  lemma SetTwice(c: Config, u: string, v: string)
    ensures Set(Set(c, u), v) == Set(c, v)
  {
  }

  /**
   * `getApiBaseUrl` (which uses `??`) and `hydrateApiBaseUrl` (which tests
   * truthiness) pick different URLs exactly when the store holds the empty
   * string under the key and the default is not itself empty.
   */
  lemma GetHydrateDisagree(c: Config, env: string)
    ensures Hydrate(c, env).baseURL != Get(c, env)
        <==> Key in c.store && c.store[Key] == "" && env != ""
  {
  }

  /**
   * The settings layer over a persisted store and the shared client.
   * `envApiUrl` is the compiled-in default `Env.API_URL`.
   */
  class Settings {
    var store: map<string, string>
    const client: Http.Client
    const envApiUrl: string

    constructor (store: map<string, string>, client: Http.Client, envApiUrl: string)
      ensures this.store == store && this.client == client && this.envApiUrl == envApiUrl
    {
      this.store := store;
      this.client := client;
      this.envApiUrl := envApiUrl;
    }

    /** The configuration as a value: the store and the client's current target. */
    function State(): Config
      reads this, client
    {
      Config(store, client.baseURL)
    }

    /** Reads the persisted base URL, falling back to the default; changes nothing. */
    method GetApiBaseUrl() returns (url: string)
      ensures url == Get(State(), envApiUrl)
    {
      var stored := GetItem(store, Key);
      url := stored.GetOr(envApiUrl);
    }

    /** Persists `url` and repoints the shared client; the client's log is untouched. */
    method SetApiBaseUrl(url: string)
      modifies this, client
      ensures State() == Set(old(State()), url)
      ensures client.log == old(client.log)
    {
      store := SetItem(store, Key, url);
      client.baseURL := url;
    }

    /** Copies the stored base URL, or the default, into the shared client. */
    method HydrateApiBaseUrl()
      modifies client
      ensures State() == Hydrate(old(State()), envApiUrl)
      ensures client.log == old(client.log)
    {
      var base := GetItem(store, Key);
      if base.Some? && Truthy(base.value) {
        client.baseURL := base.value;
      } else {
        client.baseURL := envApiUrl;
      }
    }
  }
}
