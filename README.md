# Spotify music quiz — a Dafny model of the quiz page

The quiz page (`pages/index.tsx`) lets a player paste a Spotify playlist link or identifier and
start a quiz over the playlist's tracks. For each track it shows up to four song names. One is the
track's own name and the others are names of other tracks. A right answer earns between 100 and 200
points depending on how fast it came. 1.5 s after each answer the page moves to the next question,
or ends the quiz with an alert that reports the score.

The model has four modules:

- `Common` (`common.dfy`): `Option` and `Min`.
- `PlaylistId` (`playlist_id.dfy`): `extractPlaylistId`.
  - The regular expression `playlist\/([a-zA-Z0-9]+)(\?.*)?$` is written out as a scanner.
  - `MatchesAt` states what a match is, independently of the scanner.
  - Lemmas prove that the scanner returns the capture group of the leftmost match, and the input
    itself when there is no match.
- `Distractors` (`distractors.dfy`): `getRandomSongs` and the choice list built by
  `prepareNextQuestion`.
  - Each `sort(() => 0.5 - Math.random())` is modelled as `Shuffle` driven by a sequence of random
    picks.
  - `ShuffleReachesEveryPermutation` proves that every permutation is produced by some picks, so the
    properties proved for all picks hold for whatever order the random sort produces.
- `Quiz` (`quiz.dfy`): the page's state as a class `Session`.
  - Its fields are the React state: `tracks`, `quizStarted`, `currentQuestion`, `score`,
    `startTime`, `choices`, `selectedAnswer` and `isCorrect`.
  - Its methods are the handlers `HandleFetchTracks`, `HandleAnswer` and `Advance` (the body of the
    `setTimeout` callback), and the helper `PrepareNextQuestion` that the first and last call.
  - The three handlers preserve the invariant `Valid`:
    - the score is never negative;
    - at most four choices are shown;
    - the question index stays inside a non-empty track list;
    - the current track's name appears exactly once among the choices.

Some inputs are parameters instead of being read:

- `Date.now()` is a `now` argument in milliseconds.
- The random sorts are pick sequences.
- The catalog's reply to the track request is an `Option<seq<Track>>`, where `None` means the request
  failed.

Each handler call stands for one event that sees the state committed by the previous one. The
`setTimeout` closure is the value `PendingAdvance`, which `HandleAnswer` returns. It holds the
question index, the track list and the score as they were when the answer was given. `Advance`
then runs with that value.

The model follows the code in these places, which the code's comments and alert text do not suggest:

- **Which `playlist/` counts.** The regular expression is tried at every start position. When the
  first `playlist/` is not followed by a valid identifier and end of input (or a `?` suffix), a later
  one can match. For example, `playlist/a-playlist/b` gives `b`.
- **`.` and line terminators.** `.` does not match `\n`, `\r`, U+2028 or U+2029. A `?` suffix that
  contains one of these is therefore no match.
- **Number of choices.** A question offers min(3, number of tracks whose name differs from the
  correct one) + 1 choices, not always four. Names are not deduplicated: two other tracks with the
  same title give two equal wrong choices.
  - `ChoiceSetSizeForDistinctNames` proves that when all names differ the count is
    min(4, number of tracks).
- **Final score in the alert.** The alert reports the score captured by the last answer's callback.
  That score was taken before the last answer's points were added, so the reported score leaves out
  the final question's award. The page's `score` state does include it. `ThreeTrackQuiz` shows both
  values.
- **Empty playlist.** The track list, `quizStarted`, score and index are set first. Preparing
  question 0 then throws, which lands in the same error alert as a failed request.
  `HandleFetchTracks` returns `Alerted` with those fields updated.

## Model

| member | source | states |
|---|---|---|
| PlaylistId.MatchesAt | pages/index.tsx:29 | the pattern `playlist\/([a-zA-Z0-9]+)(\?.*)?$` matches from `i` to `j`; `AttemptAt`, `FindMatch` and `ExtractPlaylistIdMeaning` state the scanner's results against it |
| PlaylistId.ExtractPlaylistId | pages/index.tsx:28-33 | `extractPlaylistId`; its meaning is stated by `ExtractPlaylistIdMeaning` (group 1 of the leftmost match, else the input) |
| PlaylistId.RunEnd | pages/index.tsx:29 | the greedy `[a-zA-Z0-9]+` run starting at `k` ends at `e`: everything in between is alphanumeric and the run cannot be extended |
| PlaylistId.MatchEndIsRunEnd | pages/index.tsx:29 | a match starting at a given position always ends where the alphanumeric run after `playlist/` ends, so each start has at most one match |
| PlaylistId.AttemptAt | pages/index.tsx:29-30 | trying the pattern at position `i` finds a match exactly when one starts there |
| PlaylistId.FindMatch | pages/index.tsx:29-30 | scanning from `from` finds the first start position that has a match, or reports that no position from `from` on has one |
| PlaylistId.ExtractPlaylistIdMeaning | pages/index.tsx:28-33 | the result is the capture group of the leftmost match when there is one, and the input unchanged when nothing matches |
| PlaylistId.ExtractedIsInputOrAlnumPiece | pages/index.tsx:29-32 | the result is either the input or a non-empty alphanumeric substring of it |
| PlaylistId.AlnumInputIsKept | pages/index.tsx:31-32 | an input that is already an alphanumeric identifier is returned unchanged |
| PlaylistId.ExtractIsIdempotent | pages/index.tsx:28-33 | extracting from an extracted identifier changes nothing |
| PlaylistId.ExtractIsEmptyIff | pages/index.tsx:28-33 | the identifier is empty exactly when the input is empty, so only an empty input blocks the request on that side |
| PlaylistId.NoMatchBefore | pages/index.tsx:29 | no match can start before a position if no `l` follows it, because `playlist/` has `l` second |
| PlaylistId.ExtractFromLink | pages/index.tsx:28-33 | a link made of a prefix without `l`, `playlist/`, an identifier and an optional `?…` query yields the identifier |
| PlaylistId.ExtractFromShareUrl | pages/index.tsx:28-33 | `https://open.spotify.com/playlist/37i9dQZF1?si=abc` yields `37i9dQZF1` |
| Distractors.Names | pages/index.tsx:37 | the track names in playlist order; `NameAt` states that position `k` holds track `k`'s name and the lengths agree |
| Distractors.Without | pages/index.tsx:38 | the filter; its meaning is stated by `WithoutCounts` |
| Distractors.Shuffle | pages/index.tsx:39 | one outcome of the random sort; `ShufflePermutes` and `ShuffleReachesEveryPermutation` state that the outcomes are exactly the permutations |
| Distractors.GetRandomSongs | pages/index.tsx:36-41 | `getRandomSongs`; its meaning is stated by `GetRandomSongsDrawsOtherNames` |
| Distractors.ChoiceSet | pages/index.tsx:63-66 | the choice list of `prepareNextQuestion`; its meaning is stated by `ChoiceSetIsPermutation` |
| Distractors.NameAt | pages/index.tsx:37 | the names list is as long as the track list and position `k` holds track `k`'s name |
| Distractors.WithoutCounts | pages/index.tsx:38 | filtering out the correct name removes every copy of it and keeps every other name as often as it occurs, so the list shrinks by the number of tracks with that name |
| Distractors.ShufflePermutes | pages/index.tsx:39 | a shuffle outcome is a permutation of its input (same multiset, same length) |
| Distractors.ShuffleReachesEveryPermutation | pages/index.tsx:39 | every permutation of the input is the outcome of some picks, so the model covers every order the random sort can produce |
| Distractors.GetRandomSongsDrawsOtherNames | pages/index.tsx:36-41 | exactly min(3, number of tracks with another name) wrong names; they are a sub-multiset of the filtered names, never the correct name, and each is a track's name |
| Distractors.ChoiceSetIsPermutation | pages/index.tsx:62-66 | the choices are a permutation of the wrong names plus the correct name; the correct name occurs exactly once; there are min(3, …) + 1 ≤ 4 choices, each a track's name |
| Distractors.ShuffledChoices | pages/index.tsx:66 | shuffling the wrong names with a correct name they lack gives each back, the correct one once, one more than the wrong names, all from the same pool |
| Distractors.ChoiceSetSizeForDistinctNames | pages/index.tsx:36-66 | with pairwise different track names a question offers min(4, number of tracks) choices |
| Quiz.Points | pages/index.tsx:77-83 | a correct answer earns at least 100 points, at most 200 when the elapsed time is not negative, and exactly 100 after 10 s |
| Quiz.PointsIsSourceFormula | pages/index.tsx:77-83 | the integer award equals `floor(100 + max(0, 10 − ms/1000) · 10)` computed over the reals |
| Quiz.PointsNonIncreasing | pages/index.tsx:77-83 | an immediate answer earns 200, and a later answer never earns more than an earlier one |
| Quiz.WillRequest | pages/index.tsx:46 | the guard `token && extractedId` (an empty string is falsy); `HandleFetchTracks` states that a request, and so any change of state, happens exactly when it holds |
| Quiz.IsCorrectAnswer | pages/index.tsx:74-82 | `selectedSong === tracks[currentQuestion]?.track.name`, false when the index has no track; `HandleAnswer` states that `isCorrect` and the award follow it |
| Quiz.Session.constructor | pages/index.tsx:6-15 | the initial state: no tracks, no quiz, question 0, score 0, start time 0, no choices, no answer; it satisfies the invariant |
| Quiz.Session.PrepareNextQuestion | pages/index.tsx:62-71 | the choices become the choice set of the given question (the correct name once, at most four names); the answer and correctness are cleared and the clock restarts at `now` |
| Quiz.Session.HandleFetchTracks | pages/index.tsx:44-59 | nothing happens without a non-empty token and a non-empty identifier; a failed request changes nothing; a reply stores the tracks and resets score and index to 0; a non-empty reply starts the quiz with question 0's choices, and an empty one ends in the alert; the invariant is kept |
| Quiz.Session.HandleAnswer | pages/index.tsx:73-88 | records the answer; `isCorrect` says whether it is the current track's name; the score grows by the time-based award on a right answer and by 0 otherwise; the returned callback captures the question, tracks and pre-answer score |
| Quiz.Session.Advance | pages/index.tsx:89-97 | before the last question, moves to the next index and prepares it; at the last one, ends the quiz, leaves the index alone and reports the captured score; tracks and score are unchanged and the invariant is kept |
| Quiz.AnswerCorrectlyAndWait | pages/index.tsx:73-97 | a right answer `elapsedMs` into a question followed by its callback adds that answer's points; it moves to the next question, or ends the quiz reporting the score from before the answer |
| Quiz.ThreeTrackQuiz | pages/index.tsx:44-97 | three right answers in a three-track quiz leave the page score at the sum of the three awards, while the final alert reports only the first two |

## Left out

- `pages/api/auth.ts` (the token request) and `lib/spotify.ts` (the catalog request) are network I/O. The catalog's reply is a parameter of `HandleFetchTracks`, and the token is a parameter too.
- The `useEffect` that fetches the token on load, the text of the alerts, `console.error`, the JSX rendering, the `<audio>` preview and `handleVolumeChange` are UI and playback.
- Playlist items whose `track` is missing are not modelled. Every item is a `Track` with a name. The preview URL is carried but never used.
- Real time and timers: `Date.now()` is an integer millisecond argument, and the 1.5 s `setTimeout` is a separate `Advance` call made by the caller.
- Quiz.Points: works in exact arithmetic on integer milliseconds, so it does not model IEEE-754 rounding of `ms / 1000`, `* 10` and `Math.floor`.
- Distractors.Shuffle: models which orders the comparator sort can produce, not how likely each one is. The biased `0.5 - Math.random()` comparator is not uniform.
- Quiz.Session.Advance: requires that the callback was captured in the current track list (`PendingFits`). A callback left over from an earlier quiz that fires after a restart is not modelled, and neither are two clicks landing before React re-renders.
- Quiz.Session.HandleAnswer: requires the session invariant `Valid`, which every handler keeps starting from the initial state.
- Quiz.Session.PrepareNextQuestion: requires a question index inside the track list. Outside it the page throws a `TypeError`. The only caller that can reach that case is `HandleFetchTracks` on an empty playlist, and it models the throw as the alert.
- Quiz.Session.HandleFetchTracks: requires the session invariant `Valid`, like `HandleAnswer`.
