/** What `handleRequest` does to the store and what it answers, stated on
    values: one function or relation per branch of the request handler. */
module Handlers {
  import opened Values
  import opened Config
  import opened Strings
  import opened UrlCheck
  import opened KeyGen
  import opened KvStore

  /** The `error` strings of the JSON envelope, one per failure. */
  datatype ApiError =
    | InvalidPassword    // "Error: Invalid password."
    | UrlIllegal         // "Error: Url illegal."
    | KeyProtected       // "Error: Key in protect_keylist."
    | KeyExisted         // "Error: Specific key existed."
    | KeyNotExist        // "Error: Key not exist."
    | LoadKvDisabled     // "Error: Config.load_kv false."
    | KeySpaceExhausted  // only when the bounded key search gives up

  datatype Entry = Entry(key: string, value: string)

  /** A response, without its headers and JSON spelling. */
  datatype Response =
    | ApiKey(key: string)                      // {"status":200, "key": key, "error": ""}
    | ApiFound(key: string, url: string)       // qry: status 200 with the stored value
    | ApiList(kvlist: seq<Entry>)              // qryall: status 200 with the listing
    | ApiFail(error: ApiError, field: string)  // status 500; field is the key or url echoed back
    | Redirect(location: string)               // HTTP 301
    | OperatorPage(password: string)           // the operator UI with the password filled in
    | NotFound                                 // the HTTP 404 page
    | ResultPage(link: string)                 // the result page with the final link filled in
    | Blob(dataUri: string)                    // imghost: the value decoded as a data URI
    | Text(body: string)                       // other system types: the value as text

  /** The JSON command of a POST body. */
  datatype Body = Body(cmd: string, url: string, key: string, password: JsValue)

  /** An inbound request: its method, its body (read only for POST), the
      first path segment after percent-decoding, and the query string
      including its leading `?` (empty when there is none). */
  datatype Request = Request(httpMethod: string, body: Body, path: string, search: string)

  /** `is_url_exist(key)`: the stored value when it is truthy (a non-empty
      string), otherwise `null`. */
  function IsUrlExist(s: Store, key: string): (r: Option<string>)
    ensures r.Some? <==> key in s && s[key] != ""
    ensures r.Some? ==> r.value == s[key]
  {
    match Get(s, key)
    case Some(v) => if v != "" then Some(v) else None
    case None => None
  }

  /** `password === passwordValue`, with `passwordValue` read from the store. */
  predicate Authenticated(s: Store, body: Body)
    ensures PasswordKey !in s ==> (Authenticated(s, body) <==> body.password == Null)
    ensures PasswordKey in s ==> (Authenticated(s, body) <==> body.password == Str(s[PasswordKey]))
  {
    body.password == FromStored(Get(s, PasswordKey))
  }

  /** `save_url` may return `key` for a store `s`: a generated key that is absent. */
  predicate FreshKey(s: Store, key: string)
  {
    IsRandomKey(key) && key !in s
  }

  /** The store holds at least one key of the generated form, so a draw can
      be taken. */
  predicate HoldsRandomKey(s: Store)
  {
    exists k :: k in s && IsRandomKey(k)
  }

  /** The bounded key search gave up, which it can only do when a drawn key
      was taken; nothing was written. */
  predicate Exhausted(s: Store, r: Response, s': Store)
  {
    HoldsRandomKey(s) && r == ApiFail(KeySpaceExhausted, "") && s' == s
  }

  /** The `add` command: response `r` and new store `s'` are a possible outcome
      for store `s`, where `h` is the SHA-512 hex digest.  The random key is the
      only choice left open. */
  predicate AddOutcome(cfg: Config, h: string -> string, s: Store, url: string, key: string,
                       r: Response, s': Store)
    ensures AddOutcome(cfg, h, s, url, key, r, s') ==> s.Keys <= s'.Keys
    ensures AddOutcome(cfg, h, s, url, key, r, s') && r.ApiFail? ==> s' == s
    ensures AddOutcome(cfg, h, s, url, key, r, s') && s' != s ==> r.ApiKey? && r.key in s'
  {
    if cfg.systemType == ShortUrl && !CheckUrl(url) then
      r == ApiFail(UrlIllegal, url) && s' == s
    else if cfg.customLink && key != "" then
      if IsProtected(key) then
        r == ApiFail(KeyProtected, key) && s' == s
      else if !cfg.overwriteKv && IsUrlExist(s, key).Some? then
        r == ApiFail(KeyExisted, key) && s' == s
      else
        r == ApiKey(key) && s' == s[key := url]
    else if cfg.uniqueLink then
      match IsUrlExist(s, h(url))
      case Some(existing) => r == ApiKey(existing) && s' == s
      case None =>
        (r.ApiKey? && FreshKey(s, r.key) && s' == s[r.key := url][h(url) := r.key])
        || Exhausted(s, r, s')
    else
      (r.ApiKey? && FreshKey(s, r.key) && s' == s[r.key := url]) || Exhausted(s, r, s')
  }

  /** The `del` command. */
  function DelStep(cfg: Config, s: Store, key: string): (r: (Response, Store))
    ensures r.1.Keys <= s.Keys
    ensures r.0 == ApiKey(key) <==> !IsProtected(key)
    ensures r.0 != ApiKey(key) ==> r == (ApiFail(KeyProtected, key), s)
    ensures r.0 == ApiKey(key) ==> key !in r.1 && forall k :: k in r.1 ==> r.1[k] == s[k]
  {
    if IsProtected(key) then (ApiFail(KeyProtected, key), s)
    else
      var removed := s - {key};
      (ApiKey(key), if cfg.visitCount then removed - {CountKey(key)} else removed)
  }

  /** The `qry` command: it reads the store and writes nothing. */
  function QryResult(s: Store, key: string): (r: Response)
    ensures r.ApiFound? <==> !IsProtected(key) && key in s
    ensures r.ApiFound? ==> r.key == key && r.url == s[key]
    ensures !r.ApiFound? ==> r.ApiFail? && r.field == key
  {
    if IsProtected(key) then ApiFail(KeyProtected, key)
    else
      match Get(s, key)
      case Some(v) => ApiFound(key, v)
      case None => ApiFail(KeyNotExist, key)
  }

  /** A key `qryall` shows: neither protected nor a visit counter. */
  predicate Listable(key: string)
  {
    !IsProtected(key) && !EndsWith(key, CountSuffix)
  }

  /** The filter of `qryall` over the listed names, order kept. */
  function FilterListable(names: seq<string>): (r: seq<string>)
    ensures forall k :: k in r <==> k in names && Listable(k)
    ensures Distinct(names) ==> Distinct(r)
  {
    if names == [] then []
    else
      var rest := FilterListable(names[1..]);
      if Listable(names[0]) then
        assert Distinct(names) ==> names[0] !in names[1..];
        [names[0]] + rest
      else rest
  }

  /** The `{key, value}` pairs of `qryall`, one `get` per name. */
  function EntriesOf(s: Store, names: seq<string>): (r: seq<Entry>)
    requires forall k :: k in names ==> k in s
    ensures |r| == |names|
    ensures forall i :: 0 <= i < |names| ==> r[i] == Entry(names[i], s[names[i]])
  {
    if names == [] then [] else [Entry(names[0], s[names[0]])] + EntriesOf(s, names[1..])
  }

  /** `kv` lists store `s` as `qryall` promises: every listable key exactly
      once, with its stored value, and nothing else. */
  predicate ListsStore(s: Store, kv: seq<Entry>)
  {
    (forall i, j :: 0 <= i < j < |kv| ==> kv[i].key != kv[j].key)
    && (forall e :: e in kv ==> e.key in s && Listable(e.key) && e.value == s[e.key])
    && (forall k :: k in s && Listable(k) ==> Entry(k, s[k]) in kv)
  }

  /** The `qryall` command; the order of the listing is the store's. */
  predicate QryAllOutcome(cfg: Config, s: Store, r: Response)
    ensures QryAllOutcome(cfg, s, r) ==> (r.ApiList? <==> cfg.loadKv)
    ensures QryAllOutcome(cfg, s, r) && r.ApiList? ==> forall e :: e in r.kvlist ==> !IsProtected(e.key)
  {
    if !cfg.loadKv then r == ApiFail(LoadKvDisabled, "")
    else r.ApiList? && ListsStore(s, r.kvlist)
  }

  /** The entries built from a complete listing of the store list it. */
  lemma EntriesListStore(s: Store, names: seq<string>)
    requires Distinct(names)
    requires forall k :: k in names <==> k in s
    ensures ListsStore(s, EntriesOf(s, FilterListable(names)))
  {
    var listed := FilterListable(names);
    var kv := EntriesOf(s, listed);
    forall k | k in s && Listable(k)
      ensures Entry(k, s[k]) in kv
    {
      var i :| 0 <= i < |listed| && listed[i] == k;
      assert kv[i] == Entry(k, s[k]);
    }
  }

  /** The new value of a visit counter: absent counts as 0, and a stored
      counter goes through `parseInt(count) + 1`, which is NaN for text that
      does not start with a digit. */
  function NextCount(count: Option<string>): (r: string)
    ensures r == "NaN" <==> count.Some? && ParseInt(count.value).None?
    ensures r != "NaN" ==> ParseInt(r).Some? && ParseInt(r).value >= 1
    ensures count.Some? && ParseInt(count.value).Some? ==> ParseInt(r) == Some(ParseInt(count.value).value + 1)
  {
    match count
    case None => ParseIntOfDecimal(1); DecimalString(1)
    case Some(c) =>
      match ParseInt(c)
      case Some(n) => ParseIntOfDecimal(n + 1); DecimalString(n + 1)
      case None => "NaN"
  }

  /** How a looked-up value is served. */
  function Serve(cfg: Config, link: string): (r: Response)
    ensures r.ResultPage? || r.Redirect? || r.Blob? || r.Text?
    ensures r == ResultPage(link) || r == Redirect(link) || r == Blob(link) || r == Text(link)
    ensures r.Redirect? <==> !cfg.resultPage && cfg.systemType == ShortUrl
  {
    if cfg.resultPage then ResultPage(link)
    else
      match cfg.systemType
      case ShortUrl => Redirect(link)
      case ImgHost => Blob(link)
      case _ => Text(link)
  }

  /** The value a lookup of `path` sees: a protected key reads as "", and so
      does an absent one (both are falsy). */
  function VisibleValue(s: Store, path: string): (v: string)
    ensures IsProtected(path) ==> v == ""
    ensures v != "" ==> path in s && s[path] == v
    ensures !IsProtected(path) && path in s ==> v == s[path]
  {
    if IsProtected(path) then ""
    else
      match Get(s, path)
      case Some(v) => v
      case None => ""
  }

  /** The lookup path of a GET request (and of a POST with an unknown command). */
  function LookupStep(cfg: Config, s: Store, path: string, search: string): (r: (Response, Store))
    ensures r.1.Keys <= s.Keys + {CountKey(path)}
    ensures r.1 != s ==> path in s && s[path] != "" && !IsProtected(path)
    ensures r.0.NotFound? ==> r.1 == s
  {
    if path == "" then (Redirect(HomeUrl), s)
    else if Some(path) == Get(s, PasswordKey) then (OperatorPage(path), s)
    else
      var value := VisibleValue(s, path);
      if value == "" then (NotFound, s)
      else
        var counted :=
          if cfg.visitCount then s[CountKey(path) := NextCount(Get(s, CountKey(path)))] else s;
        var remaining := if cfg.snapchatMode then counted - {path} else counted;
        (Serve(cfg, if search != "" then value + search else value), remaining)
  }

  predicate IsCommand(req: Request, cmd: string)
  {
    req.httpMethod == "POST" && req.body.cmd == cmd
  }

  /** `handleRequest`: response `r` and store `s'` are a possible outcome. */
  predicate HandleOutcome(cfg: Config, h: string -> string, s: Store, req: Request,
                          r: Response, s': Store)
    ensures HandleOutcome(cfg, h, s, req, r, s') && r.ApiFail? ==> s' == s
    ensures HandleOutcome(cfg, h, s, req, r, s') && req.httpMethod != "POST" ==> (r, s') == LookupStep(cfg, s, req.path, req.search)
  {
    if req.httpMethod == "POST" && !Authenticated(s, req.body) then
      r == ApiFail(InvalidPassword, "") && s' == s
    else if IsCommand(req, "add") then
      AddOutcome(cfg, h, s, req.body.url, req.body.key, r, s')
    else if IsCommand(req, "del") then
      (r, s') == DelStep(cfg, s, req.body.key)
    else if IsCommand(req, "qry") then
      r == QryResult(s, req.body.key) && s' == s
    else if IsCommand(req, "qryall") then
      QryAllOutcome(cfg, s, r) && s' == s
    else
      (r, s') == LookupStep(cfg, s, req.path, req.search)
  }
}
