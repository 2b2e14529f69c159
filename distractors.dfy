/**
  Building the answer choices of one question: `getRandomSongs` picks up to three wrong song
  names from the playlist, and `prepareNextQuestion` mixes the correct name in among them.

  Both shuffle with `sort(() => 0.5 - Math.random())`. The outcome of such a sort is some
  permutation of its input; which one is left to a sequence of random picks passed in as a
  parameter, and `ShuffleReachesEveryPermutation` shows that every permutation is the outcome of
  some picks, so what is proved here for all picks holds for every outcome of the random sort.

  The functions carry no postconditions of their own; what they compute is stated by the lemmas
  after each of them.
*/
module Distractors {
  import opened Common

  /** One playlist entry: the song's name and its (possibly missing) audio preview. */
  datatype Track = Track(name: string, previewUrl: Option<string>)

  /** The most wrong names a question offers (`slice(0, 3)`). */
  const MaxWrong: nat := 3

  /** `trackList.map((track) => track.track.name)`. */
  function Names(tracks: seq<Track>): seq<string>
  {
    if tracks == [] then [] else [tracks[0].name] + Names(tracks[1..])
  }

  lemma {:induction false} NameAt(tracks: seq<Track>, k: nat)
    requires k < |tracks|
    ensures |Names(tracks)| == |tracks| && Names(tracks)[k] == tracks[k].name
  {
    if k == 0 {
      NamesLength(tracks);
    } else {
      NameAt(tracks[1..], k - 1);
    }
  }

  lemma {:induction false} NamesLength(tracks: seq<Track>)
    ensures |Names(tracks)| == |tracks|
  {
    if tracks != [] {
      NamesLength(tracks[1..]);
    }
  }

  /** `allSongs.filter(song => song !== correctSong)`. */
  function Without(names: seq<string>, correct: string): seq<string>
  {
    if names == [] then []
    else if names[0] == correct then Without(names[1..], correct)
    else [names[0]] + Without(names[1..], correct)
  }

  /**
    Filtering keeps every other name as often as it occurs and drops every copy of the correct
    one, so the result is shorter by the number of tracks that carry the correct name.
  */
  lemma {:induction false} WithoutCounts(names: seq<string>, correct: string)
    ensures multiset(Without(names, correct)) == multiset(names)[correct := 0]
    ensures |Without(names, correct)| == |names| - multiset(names)[correct]
  {
    if names != [] {
      WithoutCounts(names[1..], correct);
      assert names == [names[0]] + names[1..];
    }
  }

  /**
    One outcome of a random shuffle: the element at position `picks[0]` (modulo the length) comes
    first, and the rest is shuffled with the remaining picks. Missing picks count as 0.
  */
  function Shuffle<T>(xs: seq<T>, picks: seq<nat>): seq<T>
    decreases |xs|
  {
    if xs == [] then []
    else
      var k := Head(picks) % |xs|;
      [xs[k]] + Shuffle(xs[..k] + xs[k + 1..], Tail(picks))
  }

  /** The next random pick, 0 once the picks run out. */
  function Head(picks: seq<nat>): nat
  {
    if picks == [] then 0 else picks[0]
  }

  /** The picks after the next one. */
  function Tail(picks: seq<nat>): seq<nat>
  {
    if picks == [] then [] else picks[1..]
  }

  /** Taking out the element at `k` takes one copy of it out of the multiset. */
  lemma RemoveAtMultiset<T>(xs: seq<T>, k: nat)
    requires k < |xs|
    ensures multiset(xs[..k] + xs[k + 1..]) == multiset(xs) - multiset{xs[k]}
  {
    assert xs == xs[..k] + [xs[k]] + xs[k + 1..];
  }

  /** A shuffle is a permutation: every element keeps its number of occurrences. */
  lemma {:induction false} ShufflePermutes<T>(xs: seq<T>, picks: seq<nat>)
    ensures multiset(Shuffle(xs, picks)) == multiset(xs)
    ensures |Shuffle(xs, picks)| == |xs|
    decreases |xs|
  {
    if xs != [] {
      var k := Head(picks) % |xs|;
      RemoveAtMultiset(xs, k);
      ShufflePermutes(xs[..k] + xs[k + 1..], Tail(picks));
    }
  }

  /** A position of `v` in `xs`. */
  function IndexOf<T(==)>(xs: seq<T>, v: T): (k: nat)
    requires v in xs
    ensures k < |xs| && xs[k] == v
  {
    if xs[0] == v then 0 else 1 + IndexOf(xs[1..], v)
  }

  /** Rearrangements have the same length. */
  lemma SameLength<T>(xs: seq<T>, ys: seq<T>)
    requires multiset(ys) == multiset(xs)
    ensures |ys| == |xs|
  {
    assert |ys| == |multiset(ys)| == |multiset(xs)| == |xs|;
  }

  /** Matching first elements leave matching remainders. */
  lemma RemainderMultiset<T>(xs: seq<T>, ys: seq<T>, k: nat)
    requires multiset(ys) == multiset(xs) && k < |xs| && ys != [] && xs[k] == ys[0]
    ensures multiset(ys[1..]) == multiset(xs[..k] + xs[k + 1..])
  {
    RemoveAtMultiset(xs, k);
    assert ys == [ys[0]] + ys[1..];
    assert multiset(ys) == multiset{ys[0]} + multiset(ys[1..]);
  }

  /** Picks that make `Shuffle` produce the rearrangement `ys` of `xs`. */
  ghost function PicksFor<T>(xs: seq<T>, ys: seq<T>): (picks: seq<nat>)
    requires multiset(ys) == multiset(xs)
    ensures |picks| == |xs|
    decreases |xs|
  {
    SameLength(xs, ys);
    if xs == [] then []
    else
      assert ys[0] in multiset(xs) by {
        assert ys[0] in multiset(ys);
      }
      var k := IndexOf(xs, ys[0]);
      RemainderMultiset(xs, ys, k);
      [k] + PicksFor(xs[..k] + xs[k + 1..], ys[1..])
  }

  /** The first step of `Shuffle` with the pick `k`. */
  lemma ShuffleFirst<T>(xs: seq<T>, k: nat, tail: seq<nat>)
    requires k < |xs|
    ensures Shuffle(xs, [k] + tail) == [xs[k]] + Shuffle(xs[..k] + xs[k + 1..], tail)
  {
    assert k % |xs| == k;
    assert Head([k] + tail) % |xs| == k && Tail([k] + tail) == tail;
  }

  /** Every rearrangement of `xs` is the outcome of `Shuffle` for some picks. */
  lemma {:induction false} ShuffleReachesEveryPermutation<T>(xs: seq<T>, ys: seq<T>)
    requires multiset(ys) == multiset(xs)
    ensures Shuffle(xs, PicksFor(xs, ys)) == ys
    decreases |xs|
  {
    SameLength(xs, ys);
    if xs != [] {
      assert ys[0] in multiset(xs) by {
        assert ys[0] in multiset(ys);
      }
      var k := IndexOf(xs, ys[0]);
      var rest := xs[..k] + xs[k + 1..];
      RemainderMultiset(xs, ys, k);
      var tail := PicksFor(rest, ys[1..]);
      assert PicksFor(xs, ys) == [k] + tail;
      ShuffleReachesEveryPermutation(rest, ys[1..]);
      ShuffleFirst(xs, k, tail);
      assert ys == [ys[0]] + ys[1..];
    }
  }

  /** A prefix's elements are among the sequence's elements. */
  lemma PrefixSubMultiset<T>(xs: seq<T>, n: nat)
    requires n <= |xs|
    ensures multiset(xs[..n]) <= multiset(xs)
  {
    assert xs == xs[..n] + xs[n..];
  }

  /** `getRandomSongs`: the first three names of a shuffle of the other tracks' names. */
  function GetRandomSongs(correct: string, tracks: seq<Track>, picks: seq<nat>): seq<string>
  {
    var shuffled := Shuffle(Without(Names(tracks), correct), picks);
    shuffled[..Min(MaxWrong, |shuffled|)]
  }

  /**
    The wrong choices are min(3, number of tracks not named `correct`) names, drawn without
    replacement from the other tracks' names (equal names of different tracks are not merged):
    none is the correct name and each is the name of a track.
  */
  lemma GetRandomSongsDrawsOtherNames(correct: string, tracks: seq<Track>, picks: seq<nat>)
    ensures var wrong := GetRandomSongs(correct, tracks, picks);
      && |wrong| == Min(MaxWrong, |tracks| - multiset(Names(tracks))[correct])
      && multiset(wrong) <= multiset(Without(Names(tracks), correct))
      && correct !in wrong
      && forall w :: w in wrong ==> w in Names(tracks)
  {
    var others := Without(Names(tracks), correct);
    var shuffled := Shuffle(others, picks);
    var wrong := GetRandomSongs(correct, tracks, picks);
    NamesLength(tracks);
    WithoutCounts(Names(tracks), correct);
    ShufflePermutes(others, picks);
    PrefixSubMultiset(shuffled, |wrong|);
    assert multiset(wrong) <= multiset(others);
    assert multiset(wrong)[correct] == 0;
    forall w | w in wrong ensures w in Names(tracks) {
      assert w in multiset(wrong);
      assert w in multiset(Names(tracks));
    }
  }

  /**
    `prepareNextQuestion`'s choice list for question `question`: the wrong names plus the correct
    name, shuffled once more.
  */
  function ChoiceSet(tracks: seq<Track>, question: nat, wrongPicks: seq<nat>, choicePicks: seq<nat>): seq<string>
    requires question < |tracks|
  {
    var correct := tracks[question].name;
    Shuffle(GetRandomSongs(correct, tracks, wrongPicks) + [correct], choicePicks)
  }

  /**
    The choices are a permutation of the wrong names plus the correct name: the correct name
    occurs exactly once, there is one choice more than wrong names (so at most four), and every
    choice is the name of a track of the playlist.
  */
  lemma ChoiceSetIsPermutation(tracks: seq<Track>, question: nat, wrongPicks: seq<nat>, choicePicks: seq<nat>)
    requires question < |tracks|
    ensures var correct := tracks[question].name;
      var wrong := GetRandomSongs(correct, tracks, wrongPicks);
      var choices := ChoiceSet(tracks, question, wrongPicks, choicePicks);
      && multiset(choices) == multiset(wrong) + multiset{correct}
      && multiset(choices)[correct] == 1
      && |choices| == Min(MaxWrong, |tracks| - multiset(Names(tracks))[correct]) + 1
      && |choices| <= MaxWrong + 1
      && forall c :: c in choices ==> c in Names(tracks)
  {
    var correct := tracks[question].name;
    var wrong := GetRandomSongs(correct, tracks, wrongPicks);
    assert |wrong| == Min(MaxWrong, |tracks| - multiset(Names(tracks))[correct]) && correct !in wrong
           && (forall w :: w in wrong ==> w in Names(tracks)) by {
      GetRandomSongsDrawsOtherNames(correct, tracks, wrongPicks);
    }
    assert correct in Names(tracks) by {
      NameAt(tracks, question);
    }
    assert ChoiceSet(tracks, question, wrongPicks, choicePicks) == Shuffle(wrong + [correct], choicePicks);
    ShuffledChoices(wrong, correct, choicePicks, Names(tracks));
  }

  /**
    Shuffling the wrong names together with a correct name they do not contain gives each of them
    back, the correct one once; names drawn from `pool` stay in it.
  */
  lemma ShuffledChoices(wrong: seq<string>, correct: string, picks: seq<nat>, pool: seq<string>)
    requires correct !in wrong && correct in pool
    requires forall w :: w in wrong ==> w in pool
    ensures var choices := Shuffle(wrong + [correct], picks);
      && multiset(choices) == multiset(wrong) + multiset{correct}
      && multiset(choices)[correct] == 1
      && |choices| == |wrong| + 1
      && forall c :: c in choices ==> c in pool
  {
    var choices := Shuffle(wrong + [correct], picks);
    ShufflePermutes(wrong + [correct], picks);
    assert multiset(wrong)[correct] == 0;
    forall c | c in choices ensures c in pool {
      assert c in multiset(wrong + [correct]);
      assert c in wrong + [correct];
    }
  }

  /** Names that are pairwise different, as in a playlist without repeated titles. */
  ghost predicate Distinct(names: seq<string>)
  {
    forall a, b :: 0 <= a < b < |names| ==> names[a] != names[b]
  }

  lemma {:induction false} DistinctOccursOnce(names: seq<string>, k: nat)
    requires Distinct(names) && k < |names|
    ensures multiset(names)[names[k]] == 1
    decreases |names|
  {
    assert names == [names[0]] + names[1..];
    if k == 0 {
      assert names[0] !in names[1..];
    } else {
      DistinctOccursOnce(names[1..], k - 1);
    }
  }

  /** With pairwise different names, a question offers min(4, number of tracks) choices. */
  lemma ChoiceSetSizeForDistinctNames(tracks: seq<Track>, question: nat, wrongPicks: seq<nat>, choicePicks: seq<nat>)
    requires question < |tracks| && Distinct(Names(tracks))
    ensures |ChoiceSet(tracks, question, wrongPicks, choicePicks)| == Min(MaxWrong + 1, |tracks|)
  {
    NameAt(tracks, question);
    DistinctOccursOnce(Names(tracks), question);
    ChoiceSetIsPermutation(tracks, question, wrongPicks, choicePicks);
  }
}
