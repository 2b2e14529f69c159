/**
  Extraction of a playlist identifier from what the user typed.

  The page applies the regular expression `playlist\/([a-zA-Z0-9]+)(\?.*)?$` (no flags) with
  `String.prototype.match` and returns the first capture group; when nothing matches, the input
  itself is the identifier. The regular expression is written out here as a scanner over the
  string, and its meaning is stated separately by `MatchesAt`.
*/
module PlaylistId {
  import opened Common

  /** The literal part of the pattern that precedes the identifier. */
  const Marker: string := "playlist/"

  /** The character class `[a-zA-Z0-9]`. */
  predicate IsAlnum(c: char)
  {
    'a' <= c <= 'z' || 'A' <= c <= 'Z' || '0' <= c <= '9'
  }

  /** The characters the pattern's `.` does not match: ECMAScript's line terminators. */
  predicate IsLineTerminator(c: char)
  {
    c == '\n' || c == '\r' || c == '\U{2028}' || c == '\U{2029}'
  }

  predicate AllAlnum(s: string)
  {
    forall k :: 0 <= k < |s| ==> IsAlnum(s[k])
  }

  predicate NoLineTerminator(s: string)
  {
    forall k :: 0 <= k < |s| ==> !IsLineTerminator(s[k])
  }

  /**
    The pattern matches `s` with the match beginning at `i` and the identifier group ending at `j`:
    "playlist/" at `i`, a non-empty run of `[a-zA-Z0-9]` up to `j`, and then either the end of the
    input (`$` without the multiline flag) or a `?` followed by characters other than line
    terminators up to the end of the input.
  */
  predicate MatchesAt(s: string, i: int, j: int)
  {
    0 <= i && i + |Marker| < j <= |s| &&
    s[i..i + |Marker|] == Marker &&
    AllAlnum(s[i + |Marker|..j]) &&
    (j == |s| || (s[j] == '?' && NoLineTerminator(s[j + 1..])))
  }

  /** The match that `match` reports: no match begins further to the left. */
  ghost predicate IsLeftmostMatch(s: string, i: int, j: int)
  {
    MatchesAt(s, i, j) && forall i', j' :: 0 <= i' < i ==> !MatchesAt(s, i', j')
  }

  /** End of the longest run of `[a-zA-Z0-9]` in `s` that begins at `k` (the greedy `+`). */
  function RunEnd(s: string, k: nat): (e: nat)
    requires k <= |s|
    ensures k <= e <= |s|
    ensures AllAlnum(s[k..e])
    ensures e == |s| || !IsAlnum(s[e])
    decreases |s| - k
  {
    if k == |s| || !IsAlnum(s[k]) then k
    else
      var e := RunEnd(s, k + 1);
      assert s[k..e] == [s[k]] + s[k + 1..e];
      e
  }

  /** At a given start, a match can only end where the greedy run ends. */
  lemma {:induction false} MatchEndIsRunEnd(s: string, i: int, j: int)
    requires MatchesAt(s, i, j)
    ensures j == RunEnd(s, i + |Marker|)
  {
  }

  /** One attempt of the regular-expression engine at start position `i`. */
  function AttemptAt(s: string, i: nat): (r: Option<nat>)
    requires i <= |s|
    ensures r.Some? ==> MatchesAt(s, i, r.value)
    ensures r.None? ==> forall j :: !MatchesAt(s, i, j)
  {
    if i + |Marker| >= |s| || s[i..i + |Marker|] != Marker then None
    else
      var e := RunEnd(s, i + |Marker|);
      if i + |Marker| < e && (e == |s| || (s[e] == '?' && NoLineTerminator(s[e + 1..]))) then Some(e)
      else
        assert forall j :: !MatchesAt(s, i, j) by {
          forall j | MatchesAt(s, i, j) ensures false {
            MatchEndIsRunEnd(s, i, j);
          }
        }
        None
  }

  /** The engine's scan: attempts at `from`, `from + 1`, ... until one succeeds. */
  function FindMatch(s: string, from: nat): (m: Option<(nat, nat)>)
    requires from <= |s|
    ensures m.Some? ==> from <= m.value.0 && MatchesAt(s, m.value.0, m.value.1)
    ensures m.Some? ==> forall i, j :: from <= i < m.value.0 ==> !MatchesAt(s, i, j)
    ensures m.None? ==> forall i, j :: from <= i ==> !MatchesAt(s, i, j)
    decreases |s| - from
  {
    if from == |s| then None
    else
      match AttemptAt(s, from)
      case Some(e) => Some((from, e))
      case None => FindMatch(s, from + 1)
  }

  /**
    `extractPlaylistId`: the identifier group of the match `String.prototype.match` reports, or the
    whole input when there is none.
  */
  function ExtractPlaylistId(input: string): (id: string)
  {
    match FindMatch(input, 0)
    case Some((i, j)) => input[i + |Marker|..j]
    case None => input
  }

  /**
    The identifier is the group of the leftmost match whenever the pattern matches somewhere, and
    the input unchanged when it matches nowhere.
  */
  lemma ExtractPlaylistIdMeaning(input: string)
    ensures forall i, j :: IsLeftmostMatch(input, i, j) ==> ExtractPlaylistId(input) == input[i + |Marker|..j]
    ensures (exists i, j :: MatchesAt(input, i, j)) ==>
              exists i, j :: IsLeftmostMatch(input, i, j) && ExtractPlaylistId(input) == input[i + |Marker|..j]
    ensures (forall i, j :: !MatchesAt(input, i, j)) ==> ExtractPlaylistId(input) == input
  {
    match FindMatch(input, 0)
    case Some((i, j)) =>
      assert IsLeftmostMatch(input, i, j);
      forall i', j' | IsLeftmostMatch(input, i', j') ensures i' == i && j' == j {
        MatchEndIsRunEnd(input, i, j);
        MatchEndIsRunEnd(input, i', j');
      }
    case None =>
  }

  /** The identifier is the input itself, or a non-empty alphanumeric piece of it. */
  lemma ExtractedIsInputOrAlnumPiece(input: string)
    ensures var id := ExtractPlaylistId(input);
      id == input ||
      (id != [] && AllAlnum(id) && exists i, j :: 0 <= i <= j <= |input| && id == input[i..j])
  {
    var id := ExtractPlaylistId(input);
    ExtractPlaylistIdMeaning(input);
    if exists i, j :: MatchesAt(input, i, j) {
      var i, j :| IsLeftmostMatch(input, i, j) && id == input[i + |Marker|..j];
      assert 0 <= i + |Marker| <= j <= |input|;
    }
  }

  /** A match spells out the marker, letter by letter, from its start. */
  lemma MarkerLetter(s: string, i: int, j: int, k: nat)
    requires MatchesAt(s, i, j) && k < |Marker|
    ensures s[i + k] == Marker[k]
  {
    assert s[i..i + |Marker|][k] == s[i + k];
  }

  /** An identifier typed on its own (only `[a-zA-Z0-9]`) is returned unchanged. */
  lemma AlnumInputIsKept(input: string)
    requires AllAlnum(input)
    ensures ExtractPlaylistId(input) == input
  {
    forall i, j | MatchesAt(input, i, j) ensures false {
      MarkerLetter(input, i, j, |Marker| - 1);
    }
    ExtractPlaylistIdMeaning(input);
  }

  /** Extraction is idempotent: extracting from an extracted identifier changes nothing. */
  lemma ExtractIsIdempotent(input: string)
    ensures ExtractPlaylistId(ExtractPlaylistId(input)) == ExtractPlaylistId(input)
  {
    ExtractedIsInputOrAlnumPiece(input);
    var id := ExtractPlaylistId(input);
    if id != input {
      AlnumInputIsKept(id);
    }
  }

  /** The extracted identifier is empty exactly when the input is (the start guard's `extractedId`). */
  lemma ExtractIsEmptyIff(input: string)
    ensures ExtractPlaylistId(input) == [] <==> input == []
  {
    ExtractedIsInputOrAlnumPiece(input);
  }

  /** No match can begin before `n` when the marker's second letter `l` is absent from `s[1..n + 1]`. */
  lemma NoMatchBefore(s: string, n: nat)
    requires n < |s|
    requires forall k :: 1 <= k <= n ==> s[k] != 'l'
    ensures forall i, j :: 0 <= i < n ==> !MatchesAt(s, i, j)
  {
    forall i, j | 0 <= i < n && MatchesAt(s, i, j) ensures false {
      MarkerLetter(s, i, j, 1);
    }
  }

  /**
    A link made of a prefix without the letter `l`, `playlist/`, an identifier and an optional
    query string yields the identifier. The condition on the prefix only keeps this proof short:
    other links, such as the localized `https://open.spotify.com/intl-de/playlist/…`, are covered
    by `ExtractPlaylistIdMeaning`, which holds for every input.
  */
  lemma ExtractFromLink(prefix: string, id: string, query: string)
    requires 'l' !in prefix
    requires id != [] && AllAlnum(id)
    requires query == [] || (query[0] == '?' && NoLineTerminator(query[1..]))
    ensures ExtractPlaylistId(prefix + Marker + id + query) == id
  {
    var s := prefix + Marker + id + query;
    var i, j := |prefix|, |prefix| + |Marker| + |id|;
    assert s[i..i + |Marker|] == Marker;
    assert s[i + |Marker|..j] == id;
    if query != [] {
      assert s[j] == '?' && s[j + 1..] == query[1..];
    }
    assert MatchesAt(s, i, j);
    forall k | 1 <= k <= i ensures s[k] != 'l' {
      if k < i {
        assert s[k] == prefix[k];
      } else {
        assert s[k] == Marker[0];
      }
    }
    NoMatchBefore(s, i);
    assert IsLeftmostMatch(s, i, j);
    ExtractPlaylistIdMeaning(s);
  }

  /** A playlist URL with a share query string yields the bare identifier. */
  lemma ExtractFromShareUrl()
    ensures ExtractPlaylistId("https://open.spotify.com/playlist/37i9dQZF1?si=abc") == "37i9dQZF1"
  {
    var prefix, id, query := "https://open.spotify.com/", "37i9dQZF1", "?si=abc";
    assert "https://open.spotify.com/playlist/37i9dQZF1?si=abc" == prefix + Marker + id + query;
    assert AllAlnum(id);
    assert NoLineTerminator(query[1..]);
    ExtractFromLink(prefix, id, query);
  }
}
