/** The request handler of the worker, as a class over the `LINKS` namespace. */
module Worker {
  import opened Values
  import opened Config
  import opened Strings
  import opened UrlCheck
  import opened KeyGen
  import opened KvStore
  import opened Handlers

  /** A positive bound on the number of key draws. */
  type Draws = n: nat | n > 0 witness 1

  class Shortener {
    const cfg: Config
    /** The SHA-512 hex digest of a URL (a platform crypto call). */
    const sha512: string -> string
    /** How many keys `save_url` draws before the model gives up: at least one. */
    const drawLimit: Draws
    const links: Namespace

    constructor (cfg: Config, sha512: string -> string, drawLimit: Draws, links: Namespace)
      ensures this.cfg == cfg && this.sha512 == sha512 && this.drawLimit == drawLimit
      ensures this.links == links
    {
      this.cfg := cfg;
      this.sha512 := sha512;
      this.drawLimit := drawLimit;
      this.links := links;
    }

    /** `save_url`: draw keys until one is absent, then store the URL under it. */
    method SaveUrl(url: string, fuel: nat) returns (key: Option<string>)
      modifies links
      ensures key.Some? ==> FreshKey(old(links.entries), key.value)
      ensures key.Some? ==> links.entries == old(links.entries)[key.value := url]
      ensures key.None? ==> links.entries == old(links.entries)
      ensures key.None? ==> fuel == 0 || HoldsRandomKey(old(links.entries))
      decreases fuel
    {
      if fuel == 0 {
        return None;
      }
      var randomKey := RandomString(KeyLength);
      var isExist := links.Read(randomKey);
      if isExist == None {
        links.Put(randomKey, url);
        return Some(randomKey);
      }
      assert randomKey in links.entries && IsRandomKey(randomKey);
      key := SaveUrl(url, fuel - 1);
    }

    /** The `add` command. */
    method Add(url: string, key: string) returns (resp: Response)
      modifies links
      ensures AddOutcome(cfg, sha512, old(links.entries), url, key, resp, links.entries)
    {
      if cfg.systemType == ShortUrl && !CheckUrl(url) {
        return ApiFail(UrlIllegal, url);
      }
      if cfg.customLink && key != "" {
        if IsProtected(key) {
          return ApiFail(KeyProtected, key);
        }
        var isExist := IsUrlExist(links.entries, key);
        if !cfg.overwriteKv && isExist.Some? {
          return ApiFail(KeyExisted, key);
        }
        links.Put(key, url);
        return ApiKey(key);
      } else if cfg.uniqueLink {
        var urlSha512 := sha512(url);
        var urlKey := IsUrlExist(links.entries, urlSha512);
        if urlKey.Some? {
          return ApiKey(urlKey.value);
        }
        var saved := SaveUrl(url, drawLimit);
        if saved.None? {
          return ApiFail(KeySpaceExhausted, "");
        }
        links.Put(urlSha512, saved.value);
        return ApiKey(saved.value);
      } else {
        var saved := SaveUrl(url, drawLimit);
        if saved.None? {
          return ApiFail(KeySpaceExhausted, "");
        }
        return ApiKey(saved.value);
      }
    }

    /** The `del` command. */
    method Del(key: string) returns (resp: Response)
      modifies links
      ensures (resp, links.entries) == DelStep(cfg, old(links.entries), key)
    {
      if IsProtected(key) {
        return ApiFail(KeyProtected, key);
      }
      links.Delete(key);
      if cfg.visitCount {
        links.Delete(CountKey(key));
      }
      resp := ApiKey(key);
    }

    /** The `qry` command. */
    method Qry(key: string) returns (resp: Response)
      ensures resp == QryResult(links.entries, key)
    {
      if IsProtected(key) {
        return ApiFail(KeyProtected, key);
      }
      var value := links.Read(key);
      if value.Some? {
        resp := ApiFound(key, value.value);
      } else {
        resp := ApiFail(KeyNotExist, key);
      }
    }

    /** The `qryall` command. */
    method QryAll() returns (resp: Response)
      ensures QryAllOutcome(cfg, links.entries, resp)
    {
      if !cfg.loadKv {
        return ApiFail(LoadKvDisabled, "");
      }
      var keyList := links.List();
      EntriesListStore(links.entries, keyList);
      resp := ApiList(EntriesOf(links.entries, FilterListable(keyList)));
    }

    /** The lookup path: redirect home, the operator page, or the stored value
        after counting the visit and, in snapchat mode, deleting the key. */
    method Lookup(path: string, search: string) returns (resp: Response)
      modifies links
      ensures (resp, links.entries) == LookupStep(cfg, old(links.entries), path, search)
    {
      var passwordValue := links.Read(PasswordKey);
      if path == "" {
        return Redirect(HomeUrl);
      }
      if Some(path) == passwordValue {
        return OperatorPage(path);
      }
      var stored := links.Read(path);
      var value := if stored.Some? then stored.value else "";
      if IsProtected(path) {
        value := "";
      }
      if value == "" {
        return NotFound;
      }
      if cfg.visitCount {
        var count := links.Read(CountKey(path));
        links.Put(CountKey(path), NextCount(count));
      }
      if cfg.snapchatMode {
        links.Delete(path);
      }
      if search != "" {
        value := value + search;
      }
      resp := Serve(cfg, value);
    }

    /** `handleRequest`: authenticate POST commands, dispatch them, and send
        everything else (including a POST with an unknown command) to the
        lookup path. */
    method HandleRequest(req: Request) returns (resp: Response)
      modifies links
      ensures HandleOutcome(cfg, sha512, old(links.entries), req, resp, links.entries)
    {
      var passwordValue := links.Read(PasswordKey);
      if req.httpMethod == "POST" {
        var body := req.body;
        if body.password != FromStored(passwordValue) {
          return ApiFail(InvalidPassword, "");
        }
        if body.cmd == "add" {
          resp := Add(body.url, body.key);
          return;
        } else if body.cmd == "del" {
          resp := Del(body.key);
          return;
        } else if body.cmd == "qry" {
          resp := Qry(body.key);
          return;
        } else if body.cmd == "qryall" {
          resp := QryAll();
          return;
        }
      }
      resp := Lookup(req.path, req.search);
    }
  }
}
