/** `randomString`: short random keys over an alphabet without look-alike characters. */
module KeyGen {

  /** The alphabet, 48 characters: no `I`, `L`, `O`, `U`, `V`, `g`, `l`, `o`, `q`, `u`, `v`, `0`, `1` or `9`. */
  const Chars: string := "ABCDEFGHJK" + "MNPQRSTWXYZ" + "abcdefhijk" + "mnprstwxyz" + "2345678"

  /** The default length of a generated key. */
  const KeyLength: nat := 6

  predicate InAlphabet(s: string)
  {
    forall i :: 0 <= i < |s| ==> s[i] in Chars
  }

  /** A key `randomString()` can produce. */
  predicate IsRandomKey(key: string)
  {
    |key| == KeyLength && InAlphabet(key)
  }

  /** `-` is not in the alphabet, so no generated key looks like a counter name. */
  lemma DashNotInAlphabet()
    ensures '-' !in Chars
  {
    assert '-' !in "ABCDEFGHJK";
    assert '-' !in "MNPQRSTWXYZ";
    assert '-' !in "abcdefhijk";
    assert '-' !in "mnprstwxyz";
    assert '-' !in "2345678";
  }

  /** Draws `len` characters, each picked from `Chars` by the environment's
      random source (any choice is allowed here). */
  method RandomString(len: nat) returns (result: string)
    ensures |result| == len && InAlphabet(result)
  {
    result := "";
    for i := 0 to len
      invariant |result| == i
      invariant InAlphabet(result)
    {
      var pos :| 0 <= pos < |Chars|;
      result := result + [Chars[pos]];
    }
  }
}
