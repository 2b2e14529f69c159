/**
  The quiz page's session: the React state of `Home` (the track list, whether a quiz is running,
  the question index, the score, the answer choices, the chosen answer, whether it was right and
  when the question started) and the three handlers that change it: starting a quiz from a
  fetched playlist, answering, and the delayed step that moves to the next question or ends the
  quiz.

  The clock, the random shuffles and the catalog request are parameters: `now` is `Date.now()` in
  milliseconds, the picks drive `Distractors.Shuffle`, and the catalog's answer to the track request
  is passed in. Each handler is assumed to see the state committed by the previous event.
*/
module Quiz {
  import opened Common
  import opened PlaylistId
  import opened Distractors

  /** Milliseconds after which a correct answer earns no time bonus. */
  const BonusWindowMs: int := 10000

  /**
    Points for a correct answer given `elapsedMs` after the question started:
    `Math.floor(100 + Math.max(0, 10 - elapsedMs / 1000) * 10)` in exact arithmetic. Dafny's `/` by a
    positive divisor rounds down, as `Math.floor` does.
  */
  function Points(elapsedMs: int): (p: int)
    ensures p >= 100
    ensures elapsedMs >= 0 ==> p <= 200
    ensures elapsedMs >= BonusWindowMs ==> p == 100
  {
    if elapsedMs >= BonusWindowMs then 100 else 100 + (BonusWindowMs - elapsedMs) / 100
  }

  function RealMax(a: real, b: real): real
  {
    if a >= b then a else b
  }

  /** `Points` is the source's formula evaluated over the reals, seconds being milliseconds / 1000. */
  lemma PointsIsSourceFormula(elapsedMs: int)
    ensures Points(elapsedMs) ==
            (100.0 + RealMax(0.0, 10.0 - (elapsedMs as real) / 1000.0) * 10.0).Floor
  {
    var bonus := RealMax(0.0, 10.0 - (elapsedMs as real) / 1000.0);
    if elapsedMs < BonusWindowMs {
      var q := (BonusWindowMs - elapsedMs) / 100;
      var r := (BonusWindowMs - elapsedMs) % 100;
      assert BonusWindowMs - elapsedMs == 100 * q + r;
      assert bonus * 10.0 == (q as real) + (r as real) / 100.0;
      assert 0.0 <= (r as real) / 100.0 < 1.0;
      assert 100.0 + bonus * 10.0 == ((100 + q) as real) + (r as real) / 100.0;
    }
  }

  /** An immediate correct answer earns 200; the award never grows as the answer takes longer. */
  lemma {:induction false} PointsNonIncreasing(earlierMs: int, laterMs: int)
    requires earlierMs <= laterMs
    ensures Points(laterMs) <= Points(earlierMs)
    ensures Points(0) == 200
  {
    if laterMs < BonusWindowMs {
      var a, b := BonusWindowMs - laterMs, BonusWindowMs - earlierMs;
      assert a / 100 <= b / 100 by {
        assert 100 * (a / 100) <= a <= b < 100 * (b / 100) + 100;
      }
    }
  }

  /** The request `handleFetchTracks` may send needs a token (a non-empty string) and a non-empty identifier. */
  predicate WillRequest(token: Option<string>, input: string)
  {
    token.Some? && token.value != "" && ExtractPlaylistId(input) != ""
  }

  /** What `handleFetchTracks` ends with: nothing sent, the error alert, or a running quiz. */
  datatype StartOutcome = NotRequested | Alerted | Started

  /**
    The `setTimeout` callback of one answer, with the values its closure captured when the answer
    was given: the question index, the track list and the score before this answer's points.
  */
  datatype PendingAdvance = PendingAdvance(question: nat, tracks: seq<Track>, score: int)

  /** `selectedSong === tracks[currentQuestion]?.track.name`. */
  predicate IsCorrectAnswer(tracks: seq<Track>, question: nat, selected: string)
  {
    question < |tracks| && tracks[question].name == selected
  }

  class Session {
    var tracks: seq<Track>
    var quizStarted: bool
    var currentQuestion: nat
    var score: int
    var startTime: int
    var choices: seq<string>
    var selectedAnswer: Option<string>
    var isCorrect: Option<bool>

    /**
      The state every handler keeps: the question index stays inside a non-empty track list, the
      current track's name is exactly one of the choices, at most four choices are shown and the
      score is never negative.
    */
    ghost predicate Valid()
      reads this
    {
      && score >= 0
      && |choices| <= MaxWrong + 1
      && (tracks == [] ==> currentQuestion == 0)
      && (tracks != [] ==> currentQuestion < |tracks| && multiset(choices)[tracks[currentQuestion].name] == 1)
    }

    /** The page's initial state. */
    constructor ()
      ensures Valid()
      ensures tracks == [] && !quizStarted && currentQuestion == 0 && score == 0 && startTime == 0
      ensures choices == [] && selectedAnswer == None && isCorrect == None
    {
      tracks := [];
      quizStarted := false;
      currentQuestion := 0;
      score := 0;
      startTime := 0;
      choices := [];
      selectedAnswer := None;
      isCorrect := None;
    }

    /** Whether `pending` was captured by an answer in the current track list. */
    predicate PendingFits(pending: PendingAdvance)
      reads this
    {
      pending.tracks == tracks &&
      (tracks == [] ==> pending.question == 0) &&
      (tracks != [] ==> pending.question < |tracks|)
    }

    /** `prepareNextQuestion`: new choices for question `question`, a cleared answer and a restarted clock. */
    method PrepareNextQuestion(trackList: seq<Track>, question: nat, now: int, wrongPicks: seq<nat>, choicePicks: seq<nat>)
      requires question < |trackList|
      modifies this`choices, this`selectedAnswer, this`isCorrect, this`startTime
      ensures choices == ChoiceSet(trackList, question, wrongPicks, choicePicks)
      ensures multiset(choices)[trackList[question].name] == 1 && |choices| <= MaxWrong + 1
      ensures selectedAnswer == None && isCorrect == None && startTime == now
    {
      ChoiceSetIsPermutation(trackList, question, wrongPicks, choicePicks);
      var correctSong := trackList[question].name;
      var wrongChoices := GetRandomSongs(correctSong, trackList, wrongPicks);
      choices := Shuffle(wrongChoices + [correctSong], choicePicks);
      selectedAnswer := None;
      isCorrect := None;
      startTime := now;
    }

    /**
      `handleFetchTracks`. `response` is the catalog's answer to the request for the extracted
      identifier's tracks (`None` when the request fails). An empty track list is stored and the
      quiz marked started before preparing question 0 fails, which ends in the same alert.
    */
    method HandleFetchTracks(token: Option<string>, input: string, response: Option<seq<Track>>, now: int,
                             wrongPicks: seq<nat>, choicePicks: seq<nat>)
      returns (outcome: StartOutcome)
      requires Valid()
      modifies this
      ensures Valid()
      ensures outcome == NotRequested <==> !WillRequest(token, input)
      ensures outcome == Started <==> WillRequest(token, input) && response.Some? && response.value != []
      ensures outcome == NotRequested || response.None? ==> unchanged(this)
      ensures WillRequest(token, input) && response.Some? ==>
                tracks == response.value && quizStarted && score == 0 && currentQuestion == 0
      ensures outcome == Started ==>
                choices == ChoiceSet(tracks, 0, wrongPicks, choicePicks) &&
                selectedAnswer == None && isCorrect == None && startTime == now
      ensures outcome == Alerted && response.Some? ==>
                choices == old(choices) && selectedAnswer == old(selectedAnswer) &&
                isCorrect == old(isCorrect) && startTime == old(startTime)
    {
      var extractedId := ExtractPlaylistId(input);
      if token.Some? && token.value != "" && extractedId != "" {
        match response
        case None =>
          outcome := Alerted;
        case Some(items) =>
          tracks := items;
          quizStarted := true;
          score := 0;
          currentQuestion := 0;
          if items == [] {
            outcome := Alerted;
          } else {
            PrepareNextQuestion(items, 0, now, wrongPicks, choicePicks);
            outcome := Started;
          }
      } else {
        outcome := NotRequested;
      }
    }

    /**
      `handleAnswer`: records the answer, adds the time-based points when it is right, and returns
      the scheduled advance with the values its closure captured.
    */
    method HandleAnswer(selected: string, now: int) returns (pending: PendingAdvance)
      requires Valid()
      modifies this`score, this`selectedAnswer, this`isCorrect
      ensures Valid()
      ensures pending == PendingAdvance(currentQuestion, tracks, old(score)) && PendingFits(pending)
      ensures selectedAnswer == Some(selected)
      ensures isCorrect == Some(IsCorrectAnswer(tracks, currentQuestion, selected))
      ensures score == old(score) + (if IsCorrectAnswer(tracks, currentQuestion, selected)
                                     then Points(now - startTime) else 0)
      ensures score >= old(score)
    {
      var correctSong: Option<string> := if currentQuestion < |tracks| then Some(tracks[currentQuestion].name) else None;
      var timeTaken := now - startTime;
      pending := PendingAdvance(currentQuestion, tracks, score);
      selectedAnswer := Some(selected);
      if correctSong == Some(selected) {
        score := score + Points(timeTaken);
        isCorrect := Some(true);
      } else {
        isCorrect := Some(false);
      }
    }

    /**
      The body of the `setTimeout` callback: the next question when there is one, otherwise the end
      of the quiz, reporting the score the closure captured (without the last answer's points).
    */
    method Advance(pending: PendingAdvance, now: int, wrongPicks: seq<nat>, choicePicks: seq<nat>)
      returns (reported: Option<int>)
      requires Valid() && PendingFits(pending)
      modifies this
      ensures Valid()
      ensures tracks == old(tracks) && score == old(score)
      ensures pending.question + 1 < |pending.tracks| ==>
                currentQuestion == pending.question + 1 && quizStarted == old(quizStarted) &&
                choices == ChoiceSet(tracks, currentQuestion, wrongPicks, choicePicks) &&
                selectedAnswer == None && isCorrect == None && startTime == now && reported == None
      ensures pending.question + 1 >= |pending.tracks| ==>
                !quizStarted && reported == Some(pending.score) &&
                currentQuestion == old(currentQuestion) && choices == old(choices) &&
                selectedAnswer == old(selectedAnswer) && isCorrect == old(isCorrect) &&
                startTime == old(startTime)
    {
      if pending.question < |pending.tracks| - 1 {
        currentQuestion := pending.question + 1;
        PrepareNextQuestion(pending.tracks, pending.question + 1, now, wrongPicks, choicePicks);
        assert tracks == pending.tracks && currentQuestion < |tracks|;
        reported := None;
      } else {
        reported := Some(pending.score);
        quizStarted := false;
      }
    }
  }

  /**
    The player picks the current track's name `elapsedMs` milliseconds into the question, and the
    advance fires 1.5 s later: the answer earns its points, and the quiz either moves to the next
    question or ends reporting the score from before this answer.
  */
  method AnswerCorrectlyAndWait(session: Session, elapsedMs: nat) returns (reported: Option<int>)
    requires session.Valid() && session.tracks != []
    modifies session
    ensures session.Valid() && session.tracks == old(session.tracks)
    ensures session.score == old(session.score) + Points(elapsedMs)
    ensures old(session.currentQuestion) + 1 < |session.tracks| ==>
              reported == None && session.currentQuestion == old(session.currentQuestion) + 1
    ensures old(session.currentQuestion) + 1 >= |session.tracks| ==>
              reported == Some(old(session.score)) && !session.quizStarted
  {
    var answeredAt := session.startTime + elapsedMs;
    var pending := session.HandleAnswer(session.tracks[session.currentQuestion].name, answeredAt);
    reported := session.Advance(pending, answeredAt + 1500, [], []);
  }

  /**
    A three-track quiz answered correctly each time, `t1`, `t2` and `t3` milliseconds into the
    questions: the questions run 0, 1, 2, the quiz ends, the page's score is the sum of the three
    awards and the final alert reports only the first two.
  */
  method ThreeTrackQuiz(token: Option<string>, input: string, playlist: seq<Track>, t1: nat, t2: nat, t3: nat)
    returns (reported: Option<int>, finalScore: int)
    requires WillRequest(token, input) && |playlist| == 3
    ensures finalScore == Points(t1) + Points(t2) + Points(t3)
    ensures reported == Some(Points(t1) + Points(t2))
  {
    var session := new Session();
    var outcome := session.HandleFetchTracks(token, input, Some(playlist), 0, [], []);
    assert outcome == Started && session.currentQuestion == 0;
    reported := AnswerCorrectlyAndWait(session, t1);
    reported := AnswerCorrectlyAndWait(session, t2);
    reported := AnswerCorrectlyAndWait(session, t3);
    finalScore := session.score;
  }
}
