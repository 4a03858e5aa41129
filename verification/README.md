# URL shortener worker: a Dafny model

This project models the request handler of a Cloudflare-Worker URL shortener
(`worker.js`). The worker keeps every short link in one key-value namespace,
`LINKS`. It answers two kinds of request:

- Authenticated JSON commands sent by POST:
  - `add` stores a URL under a custom, deduplicated or random key;
  - `del` deletes a key and its visit counter;
  - `qry` reads one key;
  - `qryall` lists the store.
- Lookups by GET path. A lookup redirects to the stored URL or serves the
  stored value. It can also count visits and delete self-destructing
  ("snapchat") links.

The model has these parts:

- `Config`: the configuration record and its default values. It also holds
  the protected key list (`["password"]`), the password key and the
  `-count` suffix of counter names.
- `KvStore`: the `LINKS` namespace. It is a class `Namespace` whose `entries`
  field is a `map<string, string>`, with `Put`, `Delete` and `List` methods.
- `KeyGen`: `randomString`, which draws characters from the 48-character
  alphabet.
- `UrlCheck`: `checkURL`. The unanchored regular-expression test is written
  out as a predicate, together with the explicit first-character check.
- `Strings`: the decimal text of visit counters. It gives `toString` and the
  part of `parseInt` the counters use.
- `Handlers`: each handler branch stated on values.
  - `del`, `qry` and the lookup path are deterministic, so they are functions
    from the old store to a response and a new store.
  - `add` picks a random key, `qryall` lists in the store's own order, and
    `handleRequest` contains both. So these three are relations between the
    old store, the response and the new store.
- `Worker`: the class `Shortener`. It holds the configuration, the SHA-512
  digest function, the namespace and the bound on key draws. Its methods
  (`SaveUrl`, `Add`, `Del`, `Qry`, `QryAll`, `Lookup`, `HandleRequest`) update
  the namespace step by step, as the worker does. Each method is proved
  against the function or relation in `Handlers`.
- `Properties`: lemmas about those functions and relations. They cover the
  authentication gate, key freshness, deduplication, deletion, protected
  keys, visit counting and self-destruct.

Foreign inputs are parameters:

- The SHA-512 digest is a function-typed constant `sha512`. Lemmas that need
  its shape assume 128 lower-case hex characters (`DigestShape`).
- `Math.random` is a nondeterministic choice of an index into the alphabet.

Behaviour the model keeps from the code:

- `add`'s custom-key check and the lookup path use JavaScript truthiness. A
  key whose value is the empty string counts as absent there. `qry` tests
  `!== null`, so it reports such a key as found, with the empty value.
- `qry` and `del` of a protected key answer "Key in protect_keylist". That
  is not the answer for an absent key. Only the lookup path treats a
  protected key exactly like an absent one (`ProtectedKeyActsAbsent`).
- `del` of an absent key leaves the store unchanged only when visits are
  not counted or the key's counter is absent too (`DelAbsentKeepsStore`).
  Otherwise `del` removes the orphan counter.
- The password test is a strict comparison. When no password is stored,
  a body whose `password` is JSON `null` passes it (`MissingPasswordEntry`).
- An authenticated POST whose `cmd` is none of the four commands falls
  through to the lookup path (`UnknownCommandLooksUp`).
- Deleting a key never deletes its digest entry. In unique-link mode, the
  next `add` of the same URL therefore returns the deleted key
  (`DedupAfterDeleteReturnsDeletedKey`). Digest entries also show up in
  `qryall` (`DigestEntryIsListed`).
- Digest keys are the hex text of a 64-byte SHA-512 digest, so they are 128
  characters long, not 64.

## Model

| member | source | states |
|---|---|---|
| `KeyGen.RandomString` | worker.js:71-80 | returns exactly `len` characters, each from the alphabet |
| `KeyGen.DashNotInAlphabet` | worker.js:72 | `-` is not in the key alphabet |
| `Strings.DecimalString` | worker.js:314 | the text of a counter is a non-empty string of decimal digits |
| `Strings.LeadingDigits` | worker.js:313 | the digits `parseInt` reads form the longest all-digit prefix |
| `Strings.DecimalValueOfString` | worker.js:313-314 | the value of a number's decimal text is the number |
| `Strings.LeadingDigitsOfDigits` | worker.js:313 | `parseInt` reads the whole of an all-digit string |
| `Strings.ParseIntOfDecimal` | worker.js:313-314 | `parseInt` of `n.toString()` is `n` |
| `Strings.ParseInt` | worker.js:313 | a number is read exactly when the text starts with a digit; an all-digit text is read whole |
| `UrlCheck.CheckUrl` | worker.js:99-104 | an accepted URL starts with `h` and contains a regex match at some position |
| `UrlCheck.RegexTestAt` | worker.js:100-103 | a successful unanchored test has a match at some position |
| `UrlCheck.MatchAtTests` | worker.js:100-103 | a match at any position makes the unanchored test succeed |
| `UrlCheck.HostAtIsHostPrefix` | worker.js:100 | the host scan accepts exactly a word-character label, a dot and one more word character |
| `UrlCheck.UnanchoredAccepts` | worker.js:99-104 | any text starting with `h` in front of an accepted URL is still accepted |
| `UrlCheck.SchemeAndHostAccepted` | worker.js:99-104 | every `http://` or `https://` URL with a dotted host name is accepted |
| `KvStore.Namespace.Put` | worker.js:116 | `put` maps the key to the value and changes nothing else |
| `KvStore.Namespace.Delete` | worker.js:211 | `delete` removes the key, present or not, and changes nothing else |
| `KvStore.Namespace.List` | worker.js:256 | `list` names every stored key exactly once and nothing else |
| `Handlers.IsUrlExist` | worker.js:128-131 | gives the stored value exactly when it is a non-empty string, else nothing |
| `Handlers.Authenticated` | worker.js:140-149 | with a password stored, only that exact string passes; with none stored, only JSON `null` passes |
| `Handlers.AddOutcome` | worker.js:156-201 | `add` never removes a key; a failure writes nothing; a change means a key was returned and is now stored; giving up is possible only when a generated-form key is taken |
| `Handlers.DelStep` | worker.js:204-220 | answers with the key exactly when it is not protected, and then the key is gone and nothing is added or changed; a protected key is refused unchanged |
| `Handlers.QryResult` | worker.js:224-246 | finds a key exactly when it is unprotected and stored, with its stored value; otherwise fails naming the key |
| `Handlers.QryAllOutcome` | worker.js:249-272 | lists exactly when `load_kv` is on, and never lists a protected key |
| `Handlers.NextCount` | worker.js:312-314 | the new counter is "NaN" exactly when a stored counter has no leading digit; otherwise it reads back as a number of at least 1, one more than the old one |
| `Handlers.Serve` | worker.js:327-349 | serves the link itself as a result page, redirect, blob or text; redirects exactly in shorturl mode without a result page |
| `Handlers.VisibleValue` | worker.js:298-301 | a protected key reads as empty; any non-empty value seen is the stored one |
| `Handlers.LookupStep` | worker.js:277-349 | a lookup adds no key but the path's counter, writes only when it serves a stored, non-empty, unprotected value, and a 404 writes nothing |
| `Handlers.HandleOutcome` | worker.js:138-350 | every failure response leaves the store unchanged; a non-POST request is exactly a lookup |
| `Handlers.FilterListable` | worker.js:261 | keeps exactly the listed names that are neither protected nor end in `-count`, and keeps them distinct |
| `Handlers.EntriesOf` | worker.js:262 | pairs each name with its stored value, in order |
| `Handlers.EntriesListStore` | worker.js:256-263 | the qryall listing holds each listable key once, with its value, and nothing else |
| `Worker.Shortener.SaveUrl` | worker.js:111-121 | the returned key was absent and has generated form; the only change is that key mapped to the URL; no key is returned only when no draw was allowed or a drawn generated-form key was taken |
| `Worker.Shortener.Add` | worker.js:156-201 | response and new store are an `add` outcome: URL check, custom-key rules, digest dedup or a fresh key |
| `Worker.Shortener.Del` | worker.js:204-221 | response and new store are those of `del` |
| `Worker.Shortener.Qry` | worker.js:224-246 | answers `qry` from the store without writing |
| `Worker.Shortener.QryAll` | worker.js:249-272 | refused when `load_kv` is off; otherwise lists exactly the listable keys with their values |
| `Worker.Shortener.Lookup` | worker.js:277-349 | response and new store are those of the lookup path |
| `Worker.Shortener.HandleRequest` | worker.js:138-350 | response and new store are a possible outcome of the whole handler |
| `Properties.CountKeyIsNotPassword` | worker.js:312-314 | a counter name is never the password key nor the key it counts |
| `Properties.RandomKeyIsListable` | worker.js:261 | a generated key is neither protected nor a counter name |
| `Properties.DigestEntryIsListed` | worker.js:261 | a stored digest entry appears in every qryall listing |
| `Properties.ShippedConfiguration` | worker.js:1-13 | with the shipped configuration, `add` never replaces a truthy entry and a lookup writes nothing |
| `Properties.BadPasswordRejected` | worker.js:149-153 | a POST with a wrong password gets "Invalid password" for every command and writes nothing |
| `Properties.MissingPasswordEntry` | worker.js:140-149 | with no password stored, no string password passes; a `null` one does |
| `Properties.UnknownCommandLooksUp` | worker.js:144-298 | an authenticated POST with an unknown command is handled as a lookup |
| `Properties.AddChecksUrl` | worker.js:158-162 | in shorturl mode a URL failing `checkURL` is refused unchanged; every added URL starts with `h` |
| `Properties.AddFailureKeepsStore` | worker.js:156-201 | every failed `add` leaves the store unchanged |
| `Properties.CustomKeyAdd` | worker.js:166-182 | a protected key is refused; an existing truthy key is refused unless overwriting; otherwise the store becomes `old[key := url]` |
| `Properties.RandomKeyAdd` | worker.js:194-196 | the returned key was absent, has generated form and now holds the URL; no other key changes |
| `Properties.AddedKeyResolves` | worker.js:166-196 | `qry` of the returned key gives the added URL, unless an existing digest entry was reused |
| `Properties.AddThenLookup` | worker.js:156-349 | a lookup of the key `add` returned serves the added URL, unless a recorded digest was reused, the URL is empty or the key is the password value |
| `Properties.UniqueAddRecordsDigest` | worker.js:183-193 | a first unique add creates exactly two entries, `key -> url` and `digest -> key` |
| `Properties.UniqueAddFindsRecordedKey` | worker.js:186-189 | a recorded digest entry is returned and nothing is written |
| `Properties.UniqueAddMiss` | worker.js:190-193 | without a recorded digest, the key is fresh and both entries are written |
| `Properties.UniqueAddSameKey` | worker.js:183-193 | a second unique add of the same URL returns the first key and writes nothing |
| `Properties.DedupAfterDeleteReturnsDeletedKey` | worker.js:183-216 | after `del` of a unique key, adding its URL again returns the deleted key, which `qry` reports missing |
| `Properties.DelRemovesKeyAndCounter` | worker.js:204-220 | a protected key is refused unchanged; otherwise the key and, with counting, its counter go, and nothing else changes |
| `Properties.DelAbsentKeepsStore` | worker.js:211-216 | deleting an absent key (and absent counter) answers 200 and changes nothing |
| `Properties.DelIdempotent` | worker.js:204-220 | a second `del` of the same key answers the same and changes nothing |
| `Properties.QryReadsStore` | worker.js:231-245 | a present key returns its stored value; an absent one "Key not exist" |
| `Properties.ProtectedKeyActsAbsent` | worker.js:298-308 | a protected key gives the same answer whatever is stored under it; a lookup answers 404 as for an absent key |
| `Properties.HandlerKeepsProtectedKeys` | worker.js:138-350 | no request of any kind changes the entry of a protected key |
| `Properties.LookupServesValue` | worker.js:322-349 | a found value is served with a non-empty query string appended |
| `Properties.LookupMissNotFound` | worker.js:298-308 | a protected, missing or empty value answers 404 and writes nothing |
| `Properties.LookupFrame` | worker.js:310-320 | a lookup changes at most the key itself and its counter |
| `Properties.SnapchatDeletesOnlyPath` | worker.js:318-320 | self-destruct removes only the looked-up key; its counter and other entries stay |
| `Properties.SnapchatServesOnce` | worker.js:318-320 | after a self-destructing key is served, every later lookup of it answers 404 |
| `Properties.NextCountIncrements` | worker.js:312-314 | a counter holding `n` is rewritten as `n + 1` |
| `Properties.CountStep` | worker.js:311-315 | one more lookup of a served key moves its counter from `n` (absent for 0) to `n + 1` |
| `Properties.CounterCountsLookups` | worker.js:311-315 | `n` lookups of a served key without a counter leave the counter at exactly `n`; nothing else changes |

## Left out

- `Worker.Shortener.SaveUrl`: it draws at most `drawLimit` keys (at least one). If every drawn key is taken, it gives up, writes nothing and returns no key. `save_url` (worker.js:119) retries without a bound. Giving up is possible only when the store holds a key of generated form.
- `Worker.Shortener.Add`: because of that bound, it can answer `KeySpaceExhausted`, which the worker never sends. `Handlers.AddOutcome` allows that answer only for a store that holds a key of generated form.
- `KeyGen.RandomString`: any choice of characters is allowed; the uniform distribution of `Math.random` is not modelled.
- `Strings.LeadingDigits`: `parseInt`'s handling of leading white space, signs and a `0x` prefix is not modelled, and neither is `Number` precision above 2^53. The lookup path itself only writes decimal text or "NaN" to a counter. But a custom-key `add` can store any text under a `<key>-count` name (worker.js:166-182). On such text the model and `parseInt` can differ: for " 5" or "+5" the worker writes "6", while `Handlers.NextCount` writes "NaN".
- `Worker.Shortener.QryAll`: the listing order is the store's. The pagination of `LINKS.list()` (at most 1000 keys per call, with a cursor) is not modelled. The model's `list` always succeeds, so the "Load keyList failed" branch (worker.js:267-271) never happens.
- `Worker.Shortener.QryAll`: worker.js:262 uses `await` inside a non-async arrow function, which does not parse. The model gives the evident meaning: one `get` per listed key.
- Fetching and filling the HTML templates (operator page, result page) is left out. It is network I/O; the model returns `OperatorPage` and `ResultPage` responses that carry the substituted text.
- Response objects, headers (including CORS) and the hand-written JSON text are left out. Responses are the `Handlers.Response` datatype.
- `base64ToBlob` is left out: it calls the platform's `atob` and `Blob`. An "imghost" lookup returns `Blob(value)`.
- The SHA-512 computation (`crypto.subtle.digest`) is left out: the digest is a parameter.
- URL parsing and `decodeURIComponent` are left out: a request carries the decoded first path segment and the query string.
- Errors from `request.json()` and command fields that are not strings are left out. Only `password` keeps its JavaScript type (string, `null` or anything else). Missing `cmd`, `url` and `key` fields are modelled as empty strings. This changes one branch. An `add` body with no `key` field takes the custom-key branch in the worker, because `undefined !== ""` (worker.js:166); what the store does with an undefined key belongs to the platform. The model takes the random-key branch for such a body.
- Races between concurrent requests are left out: the counter update and `save_url`'s check-then-put are not atomic in the worker. The model is single-threaded.
- The `addEventListener` wiring (worker.js:352-354) is left out.
