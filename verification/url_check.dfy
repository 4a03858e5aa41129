/** `checkURL`: the URL test of the add command.

    The regular expression `http(s)?:\/\/([\w-]+\.)+[\w-]+(\/[\w- .\/?%&=]*)?`
    is tested without anchors, and its last group is optional, so a string
    matches it exactly when, at some position, it holds "http://" or
    "https://" followed by a run of word characters, a dot and one more word
    character: that is the shortest text the expression accepts, and every
    longer match begins with one. */
module UrlCheck {
  import opened Strings

  /** The class `[\w-]`: ASCII letters, digits, `_` and `-`. */
  predicate IsWordChar(c: char)
  {
    'a' <= c <= 'z' || 'A' <= c <= 'Z' || '0' <= c <= '9' || c == '_' || c == '-'
  }

  predicate AllWordChars(s: string)
  {
    forall i :: 0 <= i < |s| ==> IsWordChar(s[i])
  }

  /** `([\w-]+\.)+[\w-]+` matches a prefix of `t`; scans the first label. */
  predicate HostAt(t: string)
    decreases |t|
  {
    |t| >= 3 && IsWordChar(t[0]) && ((t[1] == '.' && IsWordChar(t[2])) || HostAt(t[1..]))
  }

  /** The same set of strings, stated as a label, a dot and a word character. */
  ghost predicate HostPrefix(t: string)
  {
    exists k :: 1 <= k && k + 1 < |t| && AllWordChars(t[..k]) && t[k] == '.' && IsWordChar(t[k + 1])
  }

  /** The regular expression matches at the start of `s`. */
  predicate MatchAt(s: string)
  {
    (StartsWith(s, "http://") && HostAt(s[7..])) || (StartsWith(s, "https://") && HostAt(s[8..]))
  }

  /** `RegExp.prototype.test`: the expression matches somewhere in `s`. */
  predicate RegexTest(s: string)
    decreases |s|
  {
    MatchAt(s) || (|s| > 0 && RegexTest(s[1..]))
  }

  /** `checkURL(URL)`: the expression occurs in the URL and the URL's first
      character is `h` (`URL[0]` of the empty string is `undefined`). */
  function CheckUrl(url: string): (ok: bool)
    ensures ok ==> |url| > 0 && url[0] == 'h'
    ensures ok ==> exists i :: 0 <= i <= |url| && MatchAt(url[i..])
  {
    RegexTestAt(url);
    RegexTest(url) && |url| > 0 && url[0] == 'h'
  }

  /** A successful test found the expression at some position. */
  lemma {:induction false} RegexTestAt(s: string)
    ensures RegexTest(s) ==> exists i :: 0 <= i <= |s| && MatchAt(s[i..])
    decreases |s|
  {
    if RegexTest(s) {
      if MatchAt(s) {
        assert s[0..] == s;
      } else {
        RegexTestAt(s[1..]);
        var i :| 0 <= i <= |s[1..]| && MatchAt(s[1..][i..]);
        assert s[1..][i..] == s[i + 1..];
      }
    }
  }

  /** A match at any position makes the test succeed. */
  lemma {:induction false} MatchAtTests(s: string, i: nat)
    requires i <= |s| && MatchAt(s[i..])
    ensures RegexTest(s)
    decreases i
  {
    if i == 0 {
      assert s[0..] == s;
    } else {
      assert s[1..][i - 1..] == s[i..];
      MatchAtTests(s[1..], i - 1);
    }
  }

  /** The scanning definition of the host part agrees with the label-dot-character one. */
  lemma {:induction false} HostAtIsHostPrefix(t: string)
    ensures HostAt(t) <==> HostPrefix(t)
    decreases |t|
  {
    if HostAt(t) {
      if t[1] == '.' && IsWordChar(t[2]) {
        assert AllWordChars(t[..1]);
      } else {
        HostAtIsHostPrefix(t[1..]);
        var k :| 1 <= k && k + 1 < |t[1..]| && AllWordChars(t[1..][..k]) && t[1..][k] == '.' && IsWordChar(t[1..][k + 1]);
        assert t[..k + 1] == [t[0]] + t[1..][..k];
        assert AllWordChars(t[..k + 1]);
      }
    }
    if HostPrefix(t) {
      var k :| 1 <= k && k + 1 < |t| && AllWordChars(t[..k]) && t[k] == '.' && IsWordChar(t[k + 1]);
      assert IsWordChar(t[..k][0]);
      if k > 1 {
        assert t[1..][..k - 1] == t[..k][1..];
        assert HostPrefix(t[1..]) by {
          assert t[1..][k - 1] == '.' && IsWordChar(t[1..][k]);
        }
        HostAtIsHostPrefix(t[1..]);
      }
    }
  }

  /** The test is unanchored: text in front of a matching URL is accepted as
      long as the whole string still begins with `h`. */
  lemma UnanchoredAccepts(junk: string, url: string)
    requires CheckUrl(url)
    requires |junk| > 0 && junk[0] == 'h'
    ensures CheckUrl(junk + url)
  {
    var i :| 0 <= i <= |url| && MatchAt(url[i..]);
    assert (junk + url)[|junk| + i..] == url[i..];
    MatchAtTests(junk + url, |junk| + i);
  }

  /** Every "http://" or "https://" URL whose host has a dotted name passes. */
  lemma SchemeAndHostAccepted(scheme: string, host: string)
    requires scheme == "http://" || scheme == "https://"
    requires HostPrefix(host)
    ensures CheckUrl(scheme + host)
  {
    HostAtIsHostPrefix(host);
    var s := scheme + host;
    assert s[..|scheme|] == scheme;
    assert s[|scheme|..] == host;
    assert MatchAt(s);
    assert s[0..] == s;
    MatchAtTests(s, 0);
  }
}
