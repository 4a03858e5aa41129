/** The worker's static configuration and its reserved key names. */
module Config {

  /** `system_type`: what the stored values are.  Any value other than
      "shorturl" and "imghost" behaves like `Pastebin`. */
  datatype SystemType = ShortUrl | ImgHost | Pastebin | Journal

  datatype Config = Config(
    resultPage: bool,    // result_page: render looked-up values through a result page
    theme: string,       // theme: only selects where the HTML templates are fetched from
    cors: bool,          // cors: only adds response headers
    uniqueLink: bool,    // unique_link: one short key per distinct URL, via a digest entry
    customLink: bool,    // custom_link: callers may choose the key
    overwriteKv: bool,   // overwrite_kv: a custom key may replace an existing entry
    snapchatMode: bool,  // snapchat_mode: a key is deleted when it is looked up
    visitCount: bool,    // visit_count: keep a "<key>-count" counter per key
    loadKv: bool,        // load_kv: allow listing the whole store
    systemType: SystemType)

  /** The configuration the worker ships with. */
  const DefaultConfig: Config := Config(
    resultPage := false, theme := "", cors := true, uniqueLink := false,
    customLink := true, overwriteKv := false, snapchatMode := false,
    visitCount := false, loadKv := true, systemType := ShortUrl)

  /** `protect_keylist`: names no API call may read, add, delete or list. */
  const ProtectKeylist: seq<string> := ["password"]

  /** The key whose value is the shared operator password. */
  const PasswordKey: string := "password"

  /** Where a request without a path is redirected. */
  const HomeUrl: string := "https://ckole.com/"

  const CountSuffix: string := "-count"

  predicate IsProtected(key: string)
  {
    key in ProtectKeylist
  }

  /** The name of the visit counter that belongs to `key`. */
  function CountKey(key: string): string
  {
    key + CountSuffix
  }
}
