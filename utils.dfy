/**
 * The helpers of internal/haproxy/utils.go: the credential string `basicAuth` encodes,
 * and `ExtractStringWithRegex` / `regexp.MatchString` specialised to the three patterns
 * the map resource uses on an import id:
 *
 *   map/(.*?)/entrie/(.*?)   (a match anywhere: `MatchString`)
 *   map/(.*?)/               (capture group 1 of the leftmost match)
 *   entrie/(.*?)$            (capture group 1 of the leftmost match)
 *
 * Go's `regexp` is RE2 with leftmost-first semantics: the match that starts leftmost
 * wins and, from that start, a lazy `(.*?)` takes as few characters as it can; `.`
 * matches every character but '\n', and `$` (without the `m` flag) is the end of the
 * text. Each pattern is stated as a predicate on match positions and realised by a
 * scanner proved to find the match RE2 reports.
 */
module Utils {
  import opened Wrappers
  import opened Text

  /*
   * basicAuth
   */

  /** The text `basicAuth` hands to the Base64 encoder: the user-id, a colon and the password. */
  function BasicAuthInput(username: string, password: string): string
  {
    username + ":" + password
  }

  /** Splits a user-pass at its first colon, as a Basic-scheme server reads it (RFC 7617, section 2). */
  function SplitUserPass(s: string): (r: Option<(string, string)>)
    ensures r.Some? ==> Free(r.value.0, ':') && r.value.0 + ":" + r.value.1 == s
    ensures r.None? ==> Free(s, ':')
    decreases |s|
  {
    if s == [] then None
    else if s[0] == ':' then Some(([], s[1..]))
    else match SplitUserPass(s[1..]) {
      case None => None
      case Some(p) => Some(([s[0]] + p.0, p.1))
    }
  }

  /**
   * The credentials survive the encoding: a user-id without a colon (which section 2 of
   * RFC 7617 forbids anyway) and any password are recovered from the encoded input.
   */
  lemma {:induction false} BasicAuthInputSplits(username: string, password: string)
    requires Free(username, ':')
    ensures SplitUserPass(BasicAuthInput(username, password)) == Some((username, password))
    decreases |username|
  {
    var s := BasicAuthInput(username, password);
    if username == [] {
      assert s == [':'] + password;
    } else {
      assert s[0] == username[0] != ':';
      assert s[1..] == BasicAuthInput(username[1..], password);
      BasicAuthInputSplits(username[1..], password);
      assert [username[0]] + username[1..] == username;
    }
  }

  /*
   * Match positions
   */

  /** No '\n' in `s[a..b]`: the characters a `.*` may span. */
  predicate NoNewline(s: string, a: int, b: int)
  {
    0 <= a <= b <= |s| && forall p :: a <= p < b ==> s[p] != '\n'
  }

  /** `map/(.*?)/` matches `s[i..j + 1]`, with group 1 `s[i + 4..j]`. */
  predicate MapNameMatch(s: string, i: int, j: int)
  {
    OccursAt(s, i, "map/") && i + 4 <= j < |s| && s[j] == '/' && NoNewline(s, i + 4, j)
  }

  /** The match RE2 reports for `map/(.*?)/`: the leftmost start, then the shortest group. */
  ghost predicate FirstMapNameMatch(s: string, i: int, j: int)
  {
    && MapNameMatch(s, i, j)
    && (forall i', j' :: 0 <= i' < i ==> !MapNameMatch(s, i', j'))
    && (forall j' :: j' < j ==> !MapNameMatch(s, i, j'))
  }

  /** `entrie/(.*?)$` matches from `i` to the end of `s`, with group 1 `s[i + 7..]`. */
  predicate EntrieMatch(s: string, i: int)
  {
    OccursAt(s, i, "entrie/") && NoNewline(s, i + 7, |s|)
  }

  /** The match RE2 reports for `entrie/(.*?)$`: the leftmost one. */
  ghost predicate FirstEntrieMatch(s: string, i: int)
  {
    EntrieMatch(s, i) && forall i' :: 0 <= i' < i ==> !EntrieMatch(s, i')
  }

  /** `map/(.*?)/entrie/(.*?)` matches at `i`, the first group ending where "/entrie/" starts at `j`. */
  predicate ImportMatch(s: string, i: int, j: int)
  {
    OccursAt(s, i, "map/") && i + 4 <= j && OccursAt(s, j, "/entrie/") && NoNewline(s, i + 4, j)
  }

  /*
   * Scanners
   */

  /** The first '/' at or after `from`, unless a '\n' or the end of `s` comes first. */
  function SlashFrom(s: string, from: nat): (r: Option<nat>)
    requires from <= |s|
    ensures r.Some? ==> from <= r.value < |s| && s[r.value] == '/' && NoNewline(s, from, r.value)
    ensures r.Some? ==> forall p :: from <= p < r.value ==> s[p] != '/'
    ensures r.None? ==> forall j :: from <= j < |s| && s[j] == '/' ==> !NoNewline(s, from, j)
    decreases |s| - from
  {
    if from == |s| then None
    else if s[from] == '/' then Some(from)
    else if s[from] == '\n' then None
    else SlashFrom(s, from + 1)
  }

  /** The leftmost match of `map/(.*?)/` starting at or after `from`, with its shortest group. */
  function MapNameFrom(s: string, from: nat): (r: Option<(nat, nat)>)
    requires from <= |s|
    ensures r.Some? ==> from <= r.value.0 && MapNameMatch(s, r.value.0, r.value.1)
    ensures r.Some? ==> forall j' :: j' < r.value.1 ==> !MapNameMatch(s, r.value.0, j')
    ensures r.Some? ==> forall i', j' :: from <= i' < r.value.0 ==> !MapNameMatch(s, i', j')
    ensures r.None? ==> forall i', j' :: from <= i' ==> !MapNameMatch(s, i', j')
    decreases |s| - from
  {
    if from + 4 > |s| then None
    else if OccursAt(s, from, "map/") && SlashFrom(s, from + 4).Some? then
      Some((from, SlashFrom(s, from + 4).value))
    else MapNameFrom(s, from + 1)
  }

  /** The leftmost match of `entrie/(.*?)$` starting at or after `from`. */
  function EntrieFrom(s: string, from: nat): (r: Option<nat>)
    requires from <= |s|
    ensures r.Some? ==> from <= r.value && EntrieMatch(s, r.value)
    ensures r.Some? ==> forall i' :: from <= i' < r.value ==> !EntrieMatch(s, i')
    ensures r.None? ==> forall i' :: from <= i' ==> !EntrieMatch(s, i')
    decreases |s| - from
  {
    if from + 7 > |s| then None
    else if EntrieMatch(s, from) then Some(from)
    else EntrieFrom(s, from + 1)
  }

  /** Whether "/entrie/" starts at or after `j` with no '\n' before it. */
  function EntrieSegmentFrom(s: string, j: nat): (b: bool)
    requires j <= |s|
    ensures b <==> exists j' :: j <= j' && OccursAt(s, j', "/entrie/") && NoNewline(s, j, j')
    decreases |s| - j
  {
    if OccursAt(s, j, "/entrie/") then
      assert NoNewline(s, j, j);
      true
    else if j == |s| || s[j] == '\n' then
      assert forall j' :: j <= j' && OccursAt(s, j', "/entrie/") ==> !NoNewline(s, j, j') by {
        forall j' | j <= j' && OccursAt(s, j', "/entrie/") ensures !NoNewline(s, j, j') {
          assert j' != j;
        }
      }
      false
    else
      var b := EntrieSegmentFrom(s, j + 1);
      assert b ==> exists j' :: j <= j' && OccursAt(s, j', "/entrie/") && NoNewline(s, j, j') by {
        if b {
          var j' :| j + 1 <= j' && OccursAt(s, j', "/entrie/") && NoNewline(s, j + 1, j');
          assert NoNewline(s, j, j');
        }
      }
      assert (exists j' :: j <= j' && OccursAt(s, j', "/entrie/") && NoNewline(s, j, j')) ==> b by {
        if exists j' :: j <= j' && OccursAt(s, j', "/entrie/") && NoNewline(s, j, j') {
          var j' :| j <= j' && OccursAt(s, j', "/entrie/") && NoNewline(s, j, j');
          assert j' != j;
          assert NoNewline(s, j + 1, j');
        }
      }
      b
  }

  /** Whether `map/(.*?)/entrie/(.*?)` matches at some start at or after `from`. */
  function ImportFrom(s: string, from: nat): (b: bool)
    requires from <= |s|
    ensures b <==> exists i, j :: from <= i && ImportMatch(s, i, j)
    decreases |s| - from
  {
    if from + 4 > |s| then
      assert forall i, j :: from <= i ==> !ImportMatch(s, i, j);
      false
    else if OccursAt(s, from, "map/") && EntrieSegmentFrom(s, from + 4) then
      var j :| from + 4 <= j && OccursAt(s, j, "/entrie/") && NoNewline(s, from + 4, j);
      assert ImportMatch(s, from, j);
      true
    else
      var b := ImportFrom(s, from + 1);
      assert forall j :: !ImportMatch(s, from, j);
      b
  }

  /*
   * The three uses of `regexp` on an import id
   */

  /** `regexp.MatchString("map/(.*?)/entrie/(.*?)", id)`. */
  function MatchesImportFormat(id: string): (b: bool)
    ensures b <==> exists i, j :: ImportMatch(id, i, j)
  {
    ImportFrom(id, 0)
  }

  /**
   * `ExtractStringWithRegex(id, "map/(.*?)/")`: group 1 of the match RE2 reports, or the
   * whole input when nothing matches.
   */
  function ExtractMapName(id: string): (r: string)
    ensures forall i, j :: FirstMapNameMatch(id, i, j) ==> r == id[i + 4..j]
    ensures (forall i, j :: !MapNameMatch(id, i, j)) ==> r == id
  {
    match MapNameFrom(id, 0)
    case Some((i, j)) =>
      assert FirstMapNameMatch(id, i, j);
      id[i + 4..j]
    case None => id
  }

  /**
   * `ExtractStringWithRegex(id, "entrie/(.*?)$")`: everything after the leftmost "entrie/"
   * that has no '\n' after it, or the whole input when there is none.
   */
  function ExtractEntrieName(id: string): (r: string)
    ensures forall i :: FirstEntrieMatch(id, i) ==> r == id[i + 7..]
    ensures (forall i :: !EntrieMatch(id, i)) ==> r == id
  {
    match EntrieFrom(id, 0)
    case Some(i) => id[i + 7..]
    case None => id
  }

  /**
   * The entry name the import format means: what follows the first "entrie/" after the
   * map name that `ExtractMapName` reports, with the same fallback to the whole input.
   * This is `ExtractEntrieName` with its search started after the map name.
   */
  function IntendedEntrieName(id: string): (r: string)
    ensures forall i, j, p ::
      (FirstMapNameMatch(id, i, j) && j < p && EntrieMatch(id, p) &&
       forall q :: j < q < p ==> !EntrieMatch(id, q)) ==> r == id[p + 7..]
    ensures (forall i, j :: !MapNameMatch(id, i, j)) ==> r == ExtractEntrieName(id)
  {
    match MapNameFrom(id, 0)
    case Some((i, j)) =>
      assert FirstMapNameMatch(id, i, j);
      (match EntrieFrom(id, j + 1)
       case Some(p) => id[p + 7..]
       case None => id)
    case None => ExtractEntrieName(id)
  }

  /*
   * Import ids
   */

  /** The id `terraform import` is given for entry `key` of map `mapName`. */
  function ImportId(mapName: string, key: string): string
  {
    "map/" + mapName + "/entrie/" + key
  }

  /** The names the round trip holds for: a map name on one line without '/', a key on one line. */
  predicate WellFormedNames(mapName: string, key: string)
  {
    Free(mapName, '/') && Free(mapName, '\n') && Free(key, '\n')
  }

  lemma ImportIdMatches(mapName: string, key: string)
    requires WellFormedNames(mapName, key)
    ensures var id := ImportId(mapName, key);
      && MatchesImportFormat(id)
      && FirstMapNameMatch(id, 0, 4 + |mapName|)
      && ExtractMapName(id) == mapName
  {
    var id := ImportId(mapName, key);
    var j := 4 + |mapName|;
    assert id[0..4] == "map/";
    assert id[j..j + 8] == "/entrie/";
    assert forall p :: 4 <= p < j ==> id[p] == mapName[p - 4];
    assert ImportMatch(id, 0, j);
    assert MapNameMatch(id, 0, j);
    assert id[4..j] == mapName;
  }

  /** Where the key starts in an import id. */
  lemma ImportIdKeyAt(mapName: string, key: string)
    ensures var id := ImportId(mapName, key); id[|mapName| + 12..] == key
  {
  }

  /**
   * No "entrie/" starts before the key unless the map name ends in "entrie": every '/'
   * before the key is the one after "map", the one after the map name, or the first
   * one of "/entrie/".
   */
  lemma {:induction false} NoEarlierEntrie(mapName: string, key: string, i: int)
    requires WellFormedNames(mapName, key) && !HasSuffix(mapName, "entrie")
    requires 0 <= i < |mapName| + 5
    ensures !EntrieMatch(ImportId(mapName, key), i)
  {
    var id := ImportId(mapName, key);
    var n := |mapName|;
    var w := "entrie/";
    assert forall p :: 4 <= p < 4 + n ==> id[p] == mapName[p - 4];
    if i + 7 <= |id| {
      if i + 6 < 4 + n {
        assert id[i + 6] == mapName[i + 2] != w[6];
      } else if i + 6 == 4 + n && i >= 4 {
        assert mapName[n - 6..] != w[..6];
        var k :| 0 <= k < 6 && mapName[n - 6..][k] != w[..6][k];
        assert id[i..i + 7][k] == id[i + k] == mapName[n - 6 + k] != w[k];
      } else if i + 6 == 4 + n {
        assert id[3] == '/' != w[3 - i];
        assert id[i..i + 7][3 - i] == id[3];
      } else {
        assert id[n + 4..n + 12] == "/entrie/";
        assert id[i + 6] == "/entrie/"[i + 2 - n] != w[6];
      }
      assert id[i..i + 7] != w;
    }
  }

  lemma KeyEntrieMatch(mapName: string, key: string)
    requires WellFormedNames(mapName, key)
    ensures EntrieMatch(ImportId(mapName, key), |mapName| + 5)
  {
    var id := ImportId(mapName, key);
    var n := |mapName|;
    assert id[n + 5..n + 12] == "entrie/";
    assert forall p :: n + 12 <= p < |id| ==> id[p] == key[p - n - 12];
  }

  /**
   * The import round trip for every map name the as-written extraction handles: the id
   * passes the format check and yields the map name and the key back, even when the key
   * itself contains '/' (a key such as "/metrics").
   */
  lemma ImportIdRoundTrip(mapName: string, key: string)
    requires WellFormedNames(mapName, key) && !HasSuffix(mapName, "entrie")
    ensures var id := ImportId(mapName, key);
      && MatchesImportFormat(id)
      && ExtractMapName(id) == mapName
      && ExtractEntrieName(id) == key
  {
    var id := ImportId(mapName, key);
    ImportIdMatches(mapName, key);
    KeyEntrieMatch(mapName, key);
    forall i | 0 <= i < |mapName| + 5 ensures !EntrieMatch(id, i) {
      NoEarlierEntrie(mapName, key, i);
    }
    assert FirstEntrieMatch(id, |mapName| + 5);
    ImportIdKeyAt(mapName, key);
  }

  /**
   * As written, a map name ending in "entrie" breaks the round trip: the leftmost
   * "entrie/" is the tail of the map name, and the extracted entry name is "entrie/" + key.
   */
  lemma ExtractEntrieNameAfterEntrieSuffix(mapName: string, key: string)
    requires WellFormedNames(mapName, key) && HasSuffix(mapName, "entrie")
    ensures var id := ImportId(mapName, key);
      && MatchesImportFormat(id)
      && ExtractMapName(id) == mapName
      && ExtractEntrieName(id) == "entrie/" + key
  {
    ImportIdMatches(mapName, key);
    MapNameTailMatches(mapName, key);
  }

  /** The leftmost "entrie/" of such an id starts six characters before the map name ends. */
  lemma MapNameTailMatches(mapName: string, key: string)
    requires WellFormedNames(mapName, key) && HasSuffix(mapName, "entrie")
    ensures var id := ImportId(mapName, key);
      |mapName| >= 2 && FirstEntrieMatch(id, |mapName| - 2) && id[|mapName| + 5..] == "entrie/" + key
  {
    var id := ImportId(mapName, key);
    var n := |mapName|;
    assert id[n - 2..n + 4] == mapName[n - 6..];
    assert id[n - 2..n + 5] == "entrie/";
    assert forall p :: n + 5 <= p < |id| ==> id[p] == ("entrie/" + key)[p - n - 5];
    assert EntrieMatch(id, n - 2);
    forall i | 0 <= i < n - 2 ensures !EntrieMatch(id, i) {
      assert id[i + 6] == mapName[i + 2] != "entrie/"[6];
    }
    assert id[n + 5..] == "entrie/" + key;
  }

  /** The smallest instance: the map "xentrie" with the key "k". */
  lemma ExtractEntrieNameCounterexample()
    ensures var id := ImportId("xentrie", "k");
      && MatchesImportFormat(id)
      && ExtractMapName(id) == "xentrie"
      && ExtractEntrieName(id) == "entrie/k"
      && IntendedEntrieName(id) == "k"
  {
    assert "xentrie"[1..] == "entrie";
    ExtractEntrieNameAfterEntrieSuffix("xentrie", "k");
    IntendedImportIdRoundTrip("xentrie", "k");
  }

  /** The intended extraction gives the key back for every well-formed pair of names. */
  lemma IntendedImportIdRoundTrip(mapName: string, key: string)
    requires WellFormedNames(mapName, key)
    ensures var id := ImportId(mapName, key);
      && MatchesImportFormat(id)
      && ExtractMapName(id) == mapName
      && IntendedEntrieName(id) == key
  {
    var id := ImportId(mapName, key);
    var j := 4 + |mapName|;
    ImportIdMatches(mapName, key);
    KeyEntrieMatch(mapName, key);
    assert id[j] == '/';
    assert forall q :: j < q < j + 1 ==> !EntrieMatch(id, q);
    ImportIdKeyAt(mapName, key);
  }

  /** Where the as-written extraction already works, the intended one agrees with it. */
  lemma IntendedAgreesWithExtract(mapName: string, key: string)
    requires WellFormedNames(mapName, key) && !HasSuffix(mapName, "entrie")
    ensures IntendedEntrieName(ImportId(mapName, key)) == ExtractEntrieName(ImportId(mapName, key))
  {
    ImportIdRoundTrip(mapName, key);
    IntendedImportIdRoundTrip(mapName, key);
  }
}
