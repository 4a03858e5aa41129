/** Properties of the request handler, stated over the outcome relations of
    module Handlers: authentication, key freshness, deduplication, deletion,
    protected keys, visit counting and self-destruct. */
module Properties {
  import opened Values
  import opened Config
  import opened Strings
  import opened UrlCheck
  import opened KeyGen
  import opened KvStore
  import opened Handlers

  predicate IsLowerHex(c: char)
  {
    '0' <= c <= '9' || 'a' <= c <= 'f'
  }

  /** The text `sha512` produces: 64 bytes as 128 lower-case hex digits. */
  predicate IsDigest(d: string)
  {
    |d| == 128 && forall i :: 0 <= i < |d| ==> IsLowerHex(d[i])
  }

  ghost predicate DigestShape(h: string -> string)
  {
    forall u :: IsDigest(h(u))
  }

  /** `add` takes the unique-link branch: no custom key applies. */
  predicate UniqueBranch(cfg: Config, key: string)
  {
    cfg.uniqueLink && !(cfg.customLink && key != "")
  }

  /** A lookup of `path` finds a value to serve. */
  predicate Served(s: Store, path: string)
  {
    path != "" && Get(s, PasswordKey) != Some(path) && VisibleValue(s, path) != ""
  }

  // ---------------------------------------------------------------- keys

  /** No counter name is the password key. */
  lemma CountKeyIsNotPassword(key: string)
    ensures CountKey(key) != PasswordKey && CountKey(key) != key
  {
    var c := CountKey(key);
    if |c| == |PasswordKey| {
      assert c[|c| - 1] == 't';
      assert PasswordKey[|PasswordKey| - 1] == 'd';
    }
  }

  /** A generated key is neither protected nor a counter name, so the lookup
      path and `qryall` treat it as an ordinary key. */
  lemma RandomKeyIsListable(key: string)
    requires IsRandomKey(key)
    ensures Listable(key)
  {
    DashNotInAlphabet();
    assert key[0] in Chars;
    assert key[0] != CountSuffix[0];
    assert key[|key| - |CountSuffix|..][0] == key[0];
  }

  /** Digest entries are listed by `qryall` like any other key. */
  lemma DigestEntryIsListed(s: Store, d: string, kv: seq<Entry>)
    requires IsDigest(d) && d in s
    requires ListsStore(s, kv)
    ensures Entry(d, s[d]) in kv
  {
    var tail := d[|d| - |CountSuffix|..];
    assert tail[0] == d[|d| - |CountSuffix|] && IsLowerHex(tail[0]);
    assert tail[0] != CountSuffix[0];
    assert !IsProtected(d);
  }

  // ------------------------------------------------- shipped configuration

  /** With the configuration the worker ships with, `add` never replaces a
      truthy entry (custom keys on, overwriting off, no digest entries), and
      a lookup writes nothing (no counters, no snapchat deletion). */
  lemma ShippedConfiguration(h: string -> string, s: Store, url: string, key: string,
                             r: Response, s': Store, path: string, search: string)
    requires AddOutcome(DefaultConfig, h, s, url, key, r, s')
    ensures forall k :: k in s && s[k] != "" ==> k in s' && s'[k] == s[k]
    ensures LookupStep(DefaultConfig, s, path, search).1 == s
  {
  }

  // -------------------------------------------------------- authentication

  /** A POST whose password is not the stored one is refused, whatever its
      command, and the store is left as it was. */
  lemma BadPasswordRejected(cfg: Config, h: string -> string, s: Store, req: Request,
                            r: Response, s': Store)
    requires req.httpMethod == "POST"
    requires req.body.password != FromStored(Get(s, PasswordKey))
    requires HandleOutcome(cfg, h, s, req, r, s')
    ensures r == ApiFail(InvalidPassword, "") && s' == s
  {
  }

  /** With no password stored, a string password never authenticates, while
      a JSON `null` one does (`null !== null` is false). */
  lemma MissingPasswordEntry(s: Store, body: Body)
    requires PasswordKey !in s
    ensures body.password.Str? ==> !Authenticated(s, body)
    ensures body.password == Null ==> Authenticated(s, body)
  {
  }

  /** An authenticated POST whose command is none of the four is served by
      the lookup path. */
  lemma UnknownCommandLooksUp(cfg: Config, h: string -> string, s: Store, req: Request,
                              r: Response, s': Store)
    requires req.httpMethod == "POST" && Authenticated(s, req.body)
    requires req.body.cmd !in ["add", "del", "qry", "qryall"]
    requires HandleOutcome(cfg, h, s, req, r, s')
    ensures (r, s') == LookupStep(cfg, s, req.path, req.search)
  {
  }

  // ------------------------------------------------------------------- add

  /** In "shorturl" mode a URL that fails `checkURL` is refused unchanged, and
      every URL that is added begins with `h`. */
  lemma AddChecksUrl(cfg: Config, h: string -> string, s: Store, url: string, key: string,
                     r: Response, s': Store)
    requires cfg.systemType == ShortUrl
    requires AddOutcome(cfg, h, s, url, key, r, s')
    ensures !CheckUrl(url) ==> r == ApiFail(UrlIllegal, url) && s' == s
    ensures r.ApiKey? ==> |url| > 0 && url[0] == 'h'
  {
  }

  /** A failed `add` writes nothing. */
  lemma AddFailureKeepsStore(cfg: Config, h: string -> string, s: Store, url: string, key: string,
                             r: Response, s': Store)
    requires AddOutcome(cfg, h, s, url, key, r, s')
    ensures !r.ApiKey? ==> r.ApiFail? && s' == s
  {
  }

  /** A custom key: refused when protected, refused when it holds a truthy
      value and overwriting is off, and otherwise stored under that key. */
  lemma CustomKeyAdd(cfg: Config, h: string -> string, s: Store, url: string, key: string,
                     r: Response, s': Store)
    requires cfg.customLink && key != ""
    requires cfg.systemType != ShortUrl || CheckUrl(url)
    requires AddOutcome(cfg, h, s, url, key, r, s')
    ensures IsProtected(key) ==> r == ApiFail(KeyProtected, key) && s' == s
    ensures !IsProtected(key) && !cfg.overwriteKv && key in s && s[key] != "" ==>
              r == ApiFail(KeyExisted, key) && s' == s
    ensures !IsProtected(key) && (cfg.overwriteKv || key !in s || s[key] == "") ==>
              r == ApiKey(key) && s' == s[key := url]
  {
  }

  /** Without a custom key or unique links, `add` stores the URL under a
      generated key that was absent, and changes nothing else. */
  lemma RandomKeyAdd(cfg: Config, h: string -> string, s: Store, url: string, key: string,
                     r: Response, s': Store)
    requires !(cfg.customLink && key != "") && !cfg.uniqueLink
    requires AddOutcome(cfg, h, s, url, key, r, s')
    requires r.ApiKey?
    ensures |r.key| == KeyLength && InAlphabet(r.key)
    ensures r.key !in s && s'.Keys == s.Keys + {r.key}
    ensures s'[r.key] == url && forall k :: k in s ==> s'[k] == s[k]
  {
  }

  /** The key an `add` returns resolves, through `qry`, to the URL it was
      given, unless the unique-link branch found the URL's digest already
      recorded. */
  lemma AddedKeyResolves(cfg: Config, h: string -> string, s: Store, url: string, key: string,
                         r: Response, s': Store)
    requires DigestShape(h)
    requires AddOutcome(cfg, h, s, url, key, r, s')
    requires r.ApiKey?
    requires UniqueBranch(cfg, key) ==> IsUrlExist(s, h(url)).None?
    ensures QryResult(s', r.key) == ApiFound(r.key, url)
  {
    if !(cfg.customLink && key != "") {
      RandomKeyIsListable(r.key);
      assert IsDigest(h(url));
      assert h(url) != r.key;
    }
  }

  /** The key an `add` returns is served by a later lookup: the URL, with the
      query string appended when there is one.  The exceptions are those of
      `AddedKeyResolves`, an empty URL (falsy, so not found), and a key equal
      to the stored password, which opens the operator page instead. */
  lemma AddThenLookup(cfg: Config, h: string -> string, s: Store, url: string, key: string,
                      r: Response, s': Store, search: string)
    requires DigestShape(h)
    requires AddOutcome(cfg, h, s, url, key, r, s')
    requires r.ApiKey?
    requires UniqueBranch(cfg, key) ==> IsUrlExist(s, h(url)).None?
    requires url != "" && Get(s, PasswordKey) != Some(r.key)
    ensures LookupStep(cfg, s', r.key, search).0 == Serve(cfg, if search != "" then url + search else url)
  {
    AddedKeyResolves(cfg, h, s, url, key, r, s');
  }

  /** Unique links, first `add` of a URL whose digest is not recorded: exactly
      two entries appear, the new key holding the URL and the digest holding
      the key. */
  lemma UniqueAddRecordsDigest(cfg: Config, h: string -> string, s: Store, url: string, key: string,
                               r: Response, s': Store)
    requires DigestShape(h) && UniqueBranch(cfg, key)
    requires IsUrlExist(s, h(url)).None?
    requires AddOutcome(cfg, h, s, url, key, r, s')
    requires r.ApiKey?
    ensures r.key !in s && s'.Keys == s.Keys + {r.key, h(url)}
    ensures s'[r.key] == url && s'[h(url)] == r.key
    ensures forall k :: k in s && k != h(url) ==> s'[k] == s[k]
  {
    assert IsDigest(h(url));
  }

  /** Unique links: a second `add` of the same URL returns the key of the
      first and writes nothing. */
  lemma UniqueAddSameKey(cfg: Config, h: string -> string, s0: Store, url: string, key: string,
                         r1: Response, s1: Store, r2: Response, s2: Store)
    requires UniqueBranch(cfg, key)
    requires AddOutcome(cfg, h, s0, url, key, r1, s1) && r1.ApiKey?
    requires AddOutcome(cfg, h, s1, url, key, r2, s2)
    ensures r2 == r1 && s2 == s1
  {
    if IsUrlExist(s0, h(url)).None? {
      assert |r1.key| == KeyLength;
      assert IsUrlExist(s1, h(url)) == Some(r1.key);
    }
  }

  /** Unique links: a URL whose digest already names a key gets that key back
      and nothing is written. */
  lemma UniqueAddFindsRecordedKey(cfg: Config, h: string -> string, s: Store, url: string, key: string,
                                  existing: string, r: Response, s': Store)
    requires UniqueBranch(cfg, key)
    requires cfg.systemType != ShortUrl || CheckUrl(url)
    requires IsUrlExist(s, h(url)) == Some(existing)
    requires AddOutcome(cfg, h, s, url, key, r, s')
    ensures r == ApiKey(existing) && s' == s
  {
  }

  /** Unique links, digest not recorded: the key is fresh and both entries are
      written. */
  lemma UniqueAddMiss(cfg: Config, h: string -> string, s: Store, url: string, key: string,
                      r: Response, s': Store)
    requires UniqueBranch(cfg, key)
    requires IsUrlExist(s, h(url)).None?
    requires AddOutcome(cfg, h, s, url, key, r, s') && r.ApiKey?
    ensures cfg.systemType != ShortUrl || CheckUrl(url)
    ensures FreshKey(s, r.key) && s' == s[r.key := url][h(url) := r.key]
  {
  }

  /** Unique links: deleting the key of a URL leaves its digest entry behind,
      so the next `add` of that URL returns the deleted key, which `qry` then
      reports missing. */
  lemma DedupAfterDeleteReturnsDeletedKey(cfg: Config, h: string -> string, s0: Store,
                                          url: string, key: string,
                                          r1: Response, s1: Store, r3: Response, s3: Store)
    requires DigestShape(h) && UniqueBranch(cfg, key)
    requires IsUrlExist(s0, h(url)).None?
    requires AddOutcome(cfg, h, s0, url, key, r1, s1) && r1.ApiKey?
    requires AddOutcome(cfg, h, DelStep(cfg, s1, r1.key).1, url, key, r3, s3)
    ensures r3 == r1
    ensures QryResult(s3, r1.key) == ApiFail(KeyNotExist, r1.key)
  {
    var k, d := r1.key, h(url);
    UniqueAddMiss(cfg, h, s0, url, key, r1, s1);
    assert |d| == 128 by {
      assert IsDigest(h(url));
    }
    RandomKeyIsListable(k);
    var s2 := DelStep(cfg, s1, k).1;
    assert s2 == if cfg.visitCount then s1 - {k} - {CountKey(k)} else s1 - {k};
    assert k !in s2 && Get(s2, d) == Some(k);
    assert IsUrlExist(s2, d) == Some(k);
    UniqueAddFindsRecordedKey(cfg, h, s2, url, key, k, r3, s3);
  }

  // ------------------------------------------------------------------- del

  /** `del` of a protected key is refused and the store is unchanged;
      otherwise it removes the key, and its counter when visits are counted,
      and nothing else. */
  lemma DelRemovesKeyAndCounter(cfg: Config, s: Store, key: string)
    ensures IsProtected(key) ==> DelStep(cfg, s, key) == (ApiFail(KeyProtected, key), s)
    ensures !IsProtected(key) ==> DelStep(cfg, s, key).0 == ApiKey(key)
    ensures !IsProtected(key) ==> key !in DelStep(cfg, s, key).1
    ensures !IsProtected(key) && cfg.visitCount ==> CountKey(key) !in DelStep(cfg, s, key).1
    ensures forall k :: k != key && (cfg.visitCount ==> k != CountKey(key)) ==>
              Get(DelStep(cfg, s, key).1, k) == Get(s, k)
  {
  }

  /** Deleting an absent key succeeds and changes nothing. */
  lemma DelAbsentKeepsStore(cfg: Config, s: Store, key: string)
    requires !IsProtected(key) && key !in s
    requires cfg.visitCount ==> CountKey(key) !in s
    ensures DelStep(cfg, s, key) == (ApiKey(key), s)
  {
    assert s - {key} == s;
    if cfg.visitCount {
      assert s - {key} - {CountKey(key)} == s;
    }
  }

  /** A second `del` of the same key answers the same and changes nothing. */
  lemma DelIdempotent(cfg: Config, s: Store, key: string)
    ensures DelStep(cfg, DelStep(cfg, s, key).1, key) == DelStep(cfg, s, key)
  {
    if !IsProtected(key) {
      DelAbsentKeepsStore(cfg, DelStep(cfg, s, key).1, key);
    }
  }

  // ---------------------------------------------------- qry and protection

  /** `qry` returns the stored value of a present key, even an empty one. */
  lemma QryReadsStore(s: Store, key: string)
    ensures !IsProtected(key) && key in s ==> QryResult(s, key) == ApiFound(key, s[key])
    ensures !IsProtected(key) && key !in s ==> QryResult(s, key) == ApiFail(KeyNotExist, key)
  {
  }

  /** A protected key behaves the same whatever the store holds under it:
      `qry` and `del` refuse it and write nothing, and a lookup reports
      not found exactly as for an absent key (unless the path is the
      password itself, which opens the operator page). */
  lemma ProtectedKeyActsAbsent(cfg: Config, s: Store, key: string, value: string, search: string)
    requires IsProtected(key)
    requires Get(s, PasswordKey) != Some(key)
    ensures QryResult(s, key) == QryResult(s[key := value], key) == ApiFail(KeyProtected, key)
    ensures DelStep(cfg, s, key).1 == s
    ensures LookupStep(cfg, s, key, search) == (NotFound, s)
    ensures LookupStep(cfg, s - {key}, key, search) == (NotFound, s - {key})
  {
  }

  /** No request, whatever its command, changes the entry of a protected
      key: `add` and `del` refuse protected keys, generated keys, digests and
      counter names are never protected, and the lookup path writes only a
      counter and deletes only a key it served. */
  lemma HandlerKeepsProtectedKeys(cfg: Config, h: string -> string, s: Store, req: Request,
                                  r: Response, s': Store, p: string)
    requires DigestShape(h) && IsProtected(p)
    requires HandleOutcome(cfg, h, s, req, r, s')
    ensures Get(s', p) == Get(s, p)
  {
    CountKeyIsNotPassword(req.path);
    CountKeyIsNotPassword(req.body.key);
    if IsCommand(req, "add") && Authenticated(s, req.body) && s' != s
       && !(cfg.customLink && req.body.key != "") {
      RandomKeyIsListable(r.key);
      assert IsDigest(h(req.body.url));
    }
  }

  // ------------------------------------------------------------ lookup

  /** A lookup that finds a value serves it with the query string appended. */
  lemma LookupServesValue(cfg: Config, s: Store, path: string, search: string)
    requires Served(s, path)
    ensures LookupStep(cfg, s, path, search).0 ==
              Serve(cfg, if search != "" then s[path] + search else s[path])
  {
  }

  /** A lookup that finds nothing answers 404 and writes nothing. */
  lemma LookupMissNotFound(cfg: Config, s: Store, path: string, search: string)
    requires path != "" && Get(s, PasswordKey) != Some(path)
    requires IsProtected(path) || path !in s || s[path] == ""
    ensures LookupStep(cfg, s, path, search) == (NotFound, s)
  {
  }

  /** A lookup changes at most the key itself (snapchat mode) and its counter. */
  lemma LookupFrame(cfg: Config, s: Store, path: string, search: string)
    ensures forall k :: k != path && k != CountKey(path) ==>
              Get(LookupStep(cfg, s, path, search).1, k) == Get(s, k)
  {
  }

  /** Snapchat mode deletes only the looked-up key: its counter and any digest
      entry pointing at it stay. */
  lemma SnapchatDeletesOnlyPath(cfg: Config, s: Store, path: string, search: string)
    requires cfg.snapchatMode && Served(s, path)
    ensures path !in LookupStep(cfg, s, path, search).1
    ensures cfg.visitCount ==> CountKey(path) in LookupStep(cfg, s, path, search).1
    ensures forall k :: k in s && k != path && k != CountKey(path) ==>
              k in LookupStep(cfg, s, path, search).1
  {
    CountKeyIsNotPassword(path);
  }

  /** Snapchat mode: a served key is not found on every later lookup. */
  lemma SnapchatServesOnce(cfg: Config, s: Store, path: string, search: string, search': string)
    requires cfg.snapchatMode && Served(s, path)
    ensures var s' := LookupStep(cfg, s, path, search).1;
            LookupStep(cfg, s', path, search') == (NotFound, s')
  {
    CountKeyIsNotPassword(path);
    var s' := LookupStep(cfg, s, path, search).1;
    assert Get(s', PasswordKey) == Get(s, PasswordKey) by {
      assert path != PasswordKey;
    }
  }

  /** `parseInt` and `toString` make the counter step add one. */
  lemma NextCountIncrements(n: nat)
    ensures NextCount(Some(DecimalString(n))) == DecimalString(n + 1)
  {
    ParseIntOfDecimal(n);
  }

  /** The store after `n` lookups of the same path. */
  function LookupTimes(cfg: Config, s: Store, path: string, search: string, n: nat): Store
    decreases n
  {
    if n == 0 then s else LookupStep(cfg, LookupTimes(cfg, s, path, search, n - 1), path, search).1
  }

  /** One counted lookup of a served key with snapchat mode off writes the
      next counter value and nothing else. */
  lemma CountedLookup(cfg: Config, s: Store, path: string, search: string)
    requires cfg.visitCount && !cfg.snapchatMode && Served(s, path)
    ensures LookupStep(cfg, s, path, search).1 == s[CountKey(path) := NextCount(Get(s, CountKey(path)))]
  {
  }

  /** One more lookup of a served key whose counter holds `n` (absent for
      0) leaves it holding `n + 1`. */
  lemma CountStep(cfg: Config, s: Store, path: string, search: string, n: nat)
    requires cfg.visitCount && !cfg.snapchatMode
    requires Served(s, path) && CountKey(path) !in s
    ensures var prev := if n == 0 then s else s[CountKey(path) := DecimalString(n)];
            LookupStep(cfg, prev, path, search).1 == s[CountKey(path) := DecimalString(n + 1)]
  {
    var prev := if n == 0 then s else s[CountKey(path) := DecimalString(n)];
    assert Served(prev, path) by {
      CountKeyIsNotPassword(path);
    }
    CountedLookup(cfg, prev, path, search);
    if n > 0 {
      NextCountIncrements(n);
    }
  }

  /** With visit counting on (and snapchat mode off), `n` lookups of a served
      key with no counter yet leave the counter at `n` and change nothing else. */
  lemma {:induction false} CounterCountsLookups(cfg: Config, s: Store, path: string, search: string, n: nat)
    requires cfg.visitCount && !cfg.snapchatMode
    requires Served(s, path) && CountKey(path) !in s
    ensures LookupTimes(cfg, s, path, search, n) ==
              if n == 0 then s else s[CountKey(path) := DecimalString(n)]
    decreases n
  {
    if n > 0 {
      CounterCountsLookups(cfg, s, path, search, n - 1);
      CountStep(cfg, s, path, search, n - 1);
    }
  }
}
