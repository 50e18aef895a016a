# Base-URL configuration and update-row fallback, modelled in Dafny

This project models the two pieces of decision logic in a React Native / desktop client for a
remote word-table service.

1. **Base-URL configuration** (`src/api/common/base-url.tsx`). The API base URL is persisted
   under the storage key `API_BASE_URL` and is also copied into the shared HTTP client's
   mutable `defaults.baseURL`. There are three operations:
   - `getApiBaseUrl` reads the stored value, and uses the compiled-in `Env.API_URL` only when
     the key is missing (`??`).
   - `setApiBaseUrl` writes the store and repoints the client.
   - `hydrateApiBaseUrl` copies the stored value into the client when it is *truthy*, and
     `Env.API_URL` otherwise.
2. **Update-row mutation** (`src/api/wordsearch/use-update-row.ts`). It sends PUT `rows/{id}`.
   If that PUT is rejected with status 405, or fails with no response at all, it sends exactly
   one POST with the same path, body, `table`/`date` parameters and JSON `Content-Type`.
   Any other error is rethrown unchanged.

Files and modules:

- `wrappers.dfy`, module `Wrappers`:
  - `Option` models a possibly-missing value; its `GetOr` is the `??` operator.
  - `Result` models a promise that resolves or rejects.
- `http_client.dfy`, module `Http`: the shared client as a class.
  - It has a mutable `baseURL` and a log of `Exchange`s. Each exchange is a request plus the
    reply it got, and the request records the base URL in force when it was sent.
  - `Send` issues one request. The network is abstract: the caller supplies the reply.
- `base_url.dfy`, module `BaseUrl`:
  - Each operation is a pure transition on a `Config` value (the store map plus the client's
    target), and the properties in the table below are proved as lemmas over those transitions.
  - The `Settings` class holds the store map, the shared client and the constant `envApiUrl`
    (`Env.API_URL`). It performs the operations in place, and each of its methods is proved
    to follow the pure transition.
- `update_row.dfy`, module `UpdateRow`:
  - `FallsBack` is the catch block's test.
  - `Exchanges` and `Outcome` give one call's effect as values.
  - `MutationFn` is the imperative `mutationFn`, running on a `Http.Client`.
  - `PostsFollowFailedPuts` is a log invariant. `MutationFn` preserves it, and `SessionLog`
    proves it for any sequence of calls.
  - The path `rows/${id}` is rendered the way a template literal renders a string id, or an
    integer id of magnitude below 10^21.

A stored empty string is where `getApiBaseUrl` and `hydrateApiBaseUrl` part ways:
`getApiBaseUrl` returns `""`, while `hydrateApiBaseUrl` points the client at `Env.API_URL`.
`BaseUrl.GetHydrateDisagree` proves that this is the *only* case in which the two disagree.

## Model

| member | source | states |
|---|---|---|
| `Wrappers.Option.GetOr` | src/api/common/base-url.tsx:9 | `??`: the value when present, the default exactly when missing |
| `BaseUrl.GetItem` | src/api/common/base-url.tsx:8 | storage read: a value exactly when the key is stored, and then the stored string |
| `BaseUrl.SetItem` | src/api/common/base-url.tsx:13 | storage write: the key holds the new value; the key set gains only that key; every other entry is unchanged |
| `BaseUrl.Get` | src/api/common/base-url.tsx:7-10 | returns the stored `API_BASE_URL` when present (including `""`), the default when absent |
| `BaseUrl.Set` | src/api/common/base-url.tsx:12-15 | after saving `url`: client target is `url`, store maps `API_BASE_URL` to `url`, no other entry added or changed |
| `BaseUrl.Hydrate` | src/api/common/base-url.tsx:17-24 | store unchanged; target is the stored value when present and non-empty, the default when absent or empty |
| `BaseUrl.SetThenGet` | src/api/common/base-url.tsx:7-15 | round trip: reading after saving `u` yields exactly `u`, also for `u = ""` |
| `BaseUrl.HydrateKeepsGet` | src/api/common/base-url.tsx:7-24 | hydrating does not change what `getApiBaseUrl` returns |
| `BaseUrl.HydrateIdempotent` | src/api/common/base-url.tsx:17-24 | hydrating twice gives the same configuration as hydrating once |
| `BaseUrl.SetThenHydrate` | src/api/common/base-url.tsx:12-24 | after saving a non-empty `u`, hydrating leaves store and target as they were (target `u`) |
| `BaseUrl.SetEmptyThenHydrate` | src/api/common/base-url.tsx:12-24 | after saving `""`, reading returns `""` but hydrating sets the target to the default |
| `BaseUrl.SetTwice` | src/api/common/base-url.tsx:12-15 | a later save fully overrides an earlier one (last writer wins) |
| `BaseUrl.GetHydrateDisagree` | src/api/common/base-url.tsx:7-24 | the hydrated target differs from the read value iff the key holds `""` and the default is non-empty |
| `BaseUrl.Settings.GetApiBaseUrl` | src/api/common/base-url.tsx:7-10 | in-place read equals the `??` specification of the current store; changes no state |
| `BaseUrl.Settings.SetApiBaseUrl` | src/api/common/base-url.tsx:12-15 | new store and client target are the `Set` transition of the old ones; the client's log is untouched |
| `BaseUrl.Settings.HydrateApiBaseUrl` | src/api/common/base-url.tsx:17-24 | new client target is the `Hydrate` transition of the old state; only the client is modified, its log untouched |
| `Http.Client.Send` | src/api/wordsearch/use-update-row.ts:19-22 | one request against the current base URL is appended to the log with its reply; base URL unchanged; the reply is returned |
| `UpdateRow.IntToString` | src/api/wordsearch/use-update-row.ts:19 | an integer id renders with a leading `-` exactly when negative |
| `UpdateRow.RowPath` | src/api/wordsearch/use-update-row.ts:19 | the path is `rows/` followed by the string id verbatim or the integer id's rendering |
| `UpdateRow.DecimalRoundTrip` | src/api/wordsearch/use-update-row.ts:19 | the decimal digits of a natural read back to that natural |
| `UpdateRow.NatToDecimalInjective` | src/api/wordsearch/use-update-row.ts:19 | distinct naturals have distinct digit strings |
| `UpdateRow.IntToStringInjective` | src/api/wordsearch/use-update-row.ts:19 | distinct integers render to distinct strings |
| `UpdateRow.NumberPathInjective` | src/api/wordsearch/use-update-row.ts:19 | distinct integer ids give distinct request paths |
| `UpdateRow.FallsBack` | src/api/wordsearch/use-update-row.ts:25-29 | falls back iff the error has no response or its response status is 405 |
| `UpdateRow.RequestFor` | src/api/wordsearch/use-update-row.ts:19-22 | request carries path `rows/{id}`, the `data` body, `table`/`date` params and the JSON Content-Type |
| `UpdateRow.Exchanges` | src/api/wordsearch/use-update-row.ts:18-37 | one call issues the PUT first, a second request iff the PUT was refused with 405 or no response, never more than two, and that second request is the PUT with only the verb changed to POST |
| `UpdateRow.Outcome` | src/api/wordsearch/use-update-row.ts:18-37 | PUT success returns the PUT body; after a fallback the POST's result or error is returned unchanged; otherwise the PUT's own error is rethrown |
| `UpdateRow.PutSucceeded` | src/api/wordsearch/use-update-row.ts:18-23 | a successful PUT is the only request issued and its body is returned |
| `UpdateRow.MethodNotAllowedRetried` | src/api/wordsearch/use-update-row.ts:24-34 | a PUT refused with 405 is followed by exactly one POST of the identical request, whose result or error is returned unchanged |
| `UpdateRow.NoResponseRetried` | src/api/wordsearch/use-update-row.ts:24-34 | a PUT that got no response is followed by exactly one POST of the identical request, whose result or error is returned unchanged |
| `UpdateRow.OtherStatusRethrown` | src/api/wordsearch/use-update-row.ts:24-36 | a PUT rejected with a non-405 status issues no POST and rethrows the original error |
| `UpdateRow.MutationFn` | src/api/wordsearch/use-update-row.ts:17-38 | the client's log grows by exactly the call's exchanges against the current base URL, the result is `Outcome`, the base URL is unchanged, and the log invariant is preserved |
| `UpdateRow.AppendCallPreserves` | src/api/wordsearch/use-update-row.ts:17-37 | appending one call's exchanges keeps every POST directly after a refused PUT of the identical request |
| `UpdateRow.SessionLog` | src/api/wordsearch/use-update-row.ts:17-37 | after any sequence of calls on a fresh client: the log's length is at least the number of calls and at most twice it (the per-call bound is stated by `Exchanges`), and every POST directly follows a refused PUT of the same path, body, params and headers |

## Left out

- The storage library (`@/lib/storage`) is not part of this model. The store is a plain map
  from string to string. Serialisation, storing non-string values and read failures are not
  modelled. The model assumes that `getItem` returns exactly the string `setItem` stored, the
  empty string included. If the library turned a stored `""` into a missing value, the
  `""` divergence stated by `BaseUrl.GetHydrateDisagree` and the `""` case of
  `BaseUrl.SetThenGet` would not hold of the running program.
- `Env.API_URL` is an opaque constant: `Settings.envApiUrl`, fixed when a `Settings` is
  constructed.
- The client's initial `baseURL` (`./client`) is not part of this model. `Http.Client` takes
  it as a constructor argument.
- Axios transport is abstract, and the caller supplies each reply. This leaves out:
  - interceptors;
  - how `baseURL` and a path are joined;
  - how params are serialised (a missing `table`/`date` is an `Option.None`);
  - timeouts.
- The async scheduling and caching of react-query and react-query-kit are left out, with
  their concurrency. Each mutation call runs to completion in sequence.
- `Http.HttpError`: an error that carries a response always has an integer status. An axios
  error whose `response` lacks a status is not modelled.
- `UpdateRow.Variables.data`: `Record<string, unknown>` is narrowed to string, integer and
  null cells (the `WordRow` value shapes). The fallback only copies the body, so nothing
  depends on the narrowing.
- `UpdateRow.RowPath`: a numeric id is an integer, and the model is faithful only for
  magnitudes below 10^21. From 10^21 on, JavaScript renders the id in exponent notation
  (`1e+21`), while the model writes out every digit. `UpdateRow.IntToStringInjective` also
  covers integers beyond 2^53, which JavaScript numbers cannot hold exactly. Fractional and
  non-finite ids are not modelled.
- The read-only hooks (`use-health`, `use-tables`, `use-rows`, `use-row`, `use-search`) are
  not modelled. Each is a single pass-through GET with no decision logic.
- The response shapes in `types.ts` are not modelled beyond `UpdateResponse`, and the screens
  and row cards under `src/app` are not modelled. They are presentation code.
- `electron/main.js` is not modelled. It is a static file host and window bootstrap, built
  entirely on Node and Electron I/O.
