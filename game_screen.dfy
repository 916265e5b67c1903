/** The game screen: the client side of one match.  It parses the match id,
    loads the questions, runs the per-question countdown, scores the player's
    answers locally and keeps a leaderboard fed by the match events. */
module GameScreen {
  import opened Common
  import opened QuestionBank
  import LineraClient

  // ---------------------------------------------------------------------------
  // The match id the screen is opened with: `matchId|category`, or a bare id.
  // ---------------------------------------------------------------------------

  /** The `[actualMatchId, selectedCategory]` destructuring: with a `|`, the
      first two `|`-separated pieces; without one, the id itself and "all". */
  function ParseMatchId(matchId: string): (r: (string, string))
    ensures '|' !in matchId ==> r == (matchId, "all")
    ensures '|' in matchId ==>
      var n := |r.0|;
      && '|' !in r.0 && '|' !in r.1
      && n < |matchId| && matchId[..n] == r.0 && matchId[n] == '|'
      && n + 1 + |r.1| <= |matchId| && matchId[n + 1..n + 1 + |r.1|] == r.1
      && (n + 1 + |r.1| == |matchId| || matchId[n + 1 + |r.1|] == '|')
  {
    if '|' in matchId then
      var i := IndexOf(matchId, '|');
      var rest := matchId[i + 1..];
      var parts := Split(matchId, '|');
      assert parts == [matchId[..i]] + Split(rest, '|');
      SplitHead(rest, '|');
      (parts[0], parts[1])
    else
      (matchId, "all")
  }

  // ---------------------------------------------------------------------------
  // The time budget and the countdown.
  // ---------------------------------------------------------------------------

  /** Seconds allowed for a question of the given type (`None` when there is no
      current question): coding 120, physics simulation 60, puzzle 45, every
      other type 30. */
  function QuestionTime(kind: Option<QuestionType>): (t: nat)
    ensures 30 <= t <= 120
    ensures t == 120 <==> kind == Some(Coding)
    ensures t == 60 <==> kind == Some(PhysicsSimulation)
    ensures t == 45 <==> kind == Some(Puzzle)
    ensures t == 30 <==> kind !in {Some(Coding), Some(PhysicsSimulation), Some(Puzzle)}
  {
    match kind
    case Some(Coding) => 120
    case Some(PhysicsSimulation) => 60
    case Some(Puzzle) => 45
    case _ => 30
  }

  /** One tick of the countdown: down by one second, never below 0. */
  function NextSecond(s: int): (r: nat)
    ensures r <= if s > 0 then s else 0
    ensures s > 0 ==> r == s - 1
    ensures s <= 0 ==> r == 0
  {
    if s > 0 then s - 1 else 0
  }

  /** `n` ticks in a row. */
  function Countdown(s: int, n: nat): int
    decreases n
  {
    if n == 0 then s else Countdown(NextSecond(s), n - 1)
  }

  /** From `s` seconds, `n` ticks leave `s - n`, or 0 once `n` reaches `s`;
      the countdown stops at 0 and stays there. */
  lemma {:induction false} CountdownStopsAtZero(s: nat, n: nat)
    ensures Countdown(s, n) == if n >= s then 0 else s - n
    decreases n
  {
    if n > 0 {
      CountdownStopsAtZero(NextSecond(s), n - 1);
    }
  }

  // ---------------------------------------------------------------------------
  // Verdicts and points.
  // ---------------------------------------------------------------------------

  /** `points || fallback`: an absent or zero `points` gives the fallback. */
  function PointsOr(points: Option<int>, fallback: int): (r: int)
    ensures points.Some? && points.value != 0 ==> r == points.value
    ensures points.None? || points.value == 0 ==> r == fallback
  {
    if points.Some? && points.value != 0 then points.value else fallback
  }

  /** `selected === current.correctIndex`: an absent index matches nothing. */
  function ChoiceCorrect(selected: int, correctIndex: Option<int>): (r: bool)
    ensures r <==> correctIndex.Some? && correctIndex.value == selected
    ensures correctIndex.None? ==> !r
  {
    correctIndex == Some(selected)
  }

  /** `JSON.stringify(order) === JSON.stringify(correctOrder)` for arrays of
      integers: the two serialisations agree element by element. */
  function SameSerialisation(order: seq<int>, correctOrder: seq<int>): (r: bool)
    ensures r <==> |order| == |correctOrder|
                   && forall i :: 0 <= i < |order| ==> order[i] == correctOrder[i]
    ensures r <==> order == correctOrder
  {
    if order == [] || correctOrder == [] then order == correctOrder
    else order[0] == correctOrder[0] && SameSerialisation(order[1..], correctOrder[1..])
  }

  // ---------------------------------------------------------------------------
  // The leaderboard.
  // ---------------------------------------------------------------------------

  datatype PlayerScore = PlayerScore(address: string, score: int, answered: bool)

  /** `a.slice(0, 8) + "..." + a.slice(-6)`: the first eight and the last six
      characters (fewer when the address is shorter) around an ellipsis. */
  function Abbreviate(a: string): (r: string)
    ensures var head := if |a| < 8 then |a| else 8;
      var tail := if |a| < 6 then |a| else 6;
      |r| == head + 3 + tail
      && r[..head] == a[..head] && r[head..head + 3] == "..." && r[head + 3..] == a[|a| - tail..]
  {
    var head := if |a| < 8 then |a| else 8;
    var start := if |a| < 6 then 0 else |a| - 6;
    a[..head] + "..." + a[start..]
  }

  /** The rows of `updateLeaderboard` before sorting, in entry order. */
  function Rows(entries: Record): (rows: seq<PlayerScore>)
    ensures |rows| == |entries|
    ensures forall i :: 0 <= i < |entries| ==>
      rows[i] == PlayerScore(Abbreviate(entries[i].0), entries[i].1, true)
  {
    if entries == [] then []
    else [PlayerScore(Abbreviate(entries[0].0), entries[0].1, true)] + Rows(entries[1..])
  }

  predicate SortedByScore(rows: seq<PlayerScore>) {
    forall i, j :: 0 <= i < j < |rows| ==> rows[i].score >= rows[j].score
  }

  /** Places `row` before the first row whose score is not higher, so that it
      stays ahead of the rows with an equal score that followed it. */
  function InsertByScore(row: PlayerScore, rows: seq<PlayerScore>): (r: seq<PlayerScore>)
    ensures |r| == |rows| + 1
    ensures r[0] == row || (rows != [] && r[0] == rows[0])
  {
    if rows == [] || rows[0].score <= row.score then [row] + rows
    else [rows[0]] + InsertByScore(row, rows[1..])
  }

  /** Insertion keeps every row and adds exactly the new one. */
  lemma {:induction false} InsertByScorePermutes(row: PlayerScore, rows: seq<PlayerScore>)
    ensures multiset(InsertByScore(row, rows)) == multiset(rows) + multiset{row}
  {
    if rows != [] && rows[0].score > row.score {
      InsertByScorePermutes(row, rows[1..]);
      assert rows == [rows[0]] + rows[1..];
    }
  }

  /** Insertion into rows sorted by non-increasing score keeps them sorted. */
  lemma {:induction false} InsertByScoreSorted(row: PlayerScore, rows: seq<PlayerScore>)
    requires SortedByScore(rows)
    ensures SortedByScore(InsertByScore(row, rows))
  {
    if rows != [] && rows[0].score > row.score {
      var tail := InsertByScore(row, rows[1..]);
      InsertByScoreSorted(row, rows[1..]);
      assert rows[0].score >= tail[0].score;
      var r := [rows[0]] + tail;
      forall i, j | 0 <= i < j < |r| ensures r[i].score >= r[j].score {
        if i == 0 {
          assert r[j] == tail[j - 1];
        } else {
          assert r[i] == tail[i - 1] && r[j] == tail[j - 1];
        }
      }
    }
  }

  /** `.sort((a, b) => b.score - a.score)`, a stable sort by non-increasing
      score, as an insertion sort. */
  function SortByScore(rows: seq<PlayerScore>): (r: seq<PlayerScore>)
    ensures |r| == |rows|
    ensures multiset(r) == multiset(rows)
    ensures SortedByScore(r)
  {
    if rows == [] then []
    else
      var rest := SortByScore(rows[1..]);
      InsertByScorePermutes(rows[0], rest);
      InsertByScoreSorted(rows[0], rest);
      assert rows == [rows[0]] + rows[1..];
      assert multiset(rows) == multiset(rows[1..]) + multiset{rows[0]};
      InsertByScore(rows[0], rest)
  }

  /** `updateLeaderboard`: one row per score entry, highest score first. */
  function Leaderboard(entries: Record): (r: seq<PlayerScore>)
    ensures |r| == |entries| && SortedByScore(r)
    ensures multiset(r) == multiset(Rows(entries))
  {
    SortByScore(Rows(entries))
  }

  /** The leaderboard has exactly one row per entry, each entry's row is in
      it, and it runs from the highest score down. */
  lemma LeaderboardListsEveryEntry(entries: Record)
    ensures |Leaderboard(entries)| == |entries|
    ensures multiset(Leaderboard(entries)) == multiset(Rows(entries))
    ensures SortedByScore(Leaderboard(entries))
    ensures forall i :: 0 <= i < |entries| ==>
      PlayerScore(Abbreviate(entries[i].0), entries[i].1, true) in Leaderboard(entries)
  {
    var rows := Rows(entries);
    forall i | 0 <= i < |entries|
      ensures PlayerScore(Abbreviate(entries[i].0), entries[i].1, true) in Leaderboard(entries)
    {
      assert rows[i] in multiset(rows);
    }
  }

  /** The local leaderboard update of a correct answer: the "You" row takes the
      new score and is marked answered; the other rows stay. */
  function MarkYou(board: seq<PlayerScore>, newScore: int): (r: seq<PlayerScore>)
    ensures |r| == |board|
    ensures forall i :: 0 <= i < |board| ==>
      r[i] == if board[i].address == "You" then board[i].(score := newScore, answered := true) else board[i]
  {
    seq(|board|, i requires 0 <= i < |board| =>
      if board[i].address == "You" then board[i].(score := newScore, answered := true) else board[i])
  }

  // ---------------------------------------------------------------------------
  // The screen's state and its transitions.
  // ---------------------------------------------------------------------------

  /** The state the screen keeps between renders. */
  datatype Session = Session(
    questions: seq<Question>,
    questionIndex: nat,
    secondsLeft: int,
    selected: Option<int>,
    score: int,
    submitted: bool,
    showResult: bool,
    isCorrect: bool,
    matchFinished: bool,
    leaderboard: seq<PlayerScore>)

  /** The state when the screen opens. */
  function InitialSession(): (s: Session)
    ensures s.questions == [] && s.questionIndex == 0 && s.secondsLeft == 30
    ensures s.selected.None? && s.score == 0 && !s.submitted && !s.showResult
    ensures !s.isCorrect && !s.matchFinished
    ensures s.leaderboard == [PlayerScore("You", 0, false)]
  {
    Session([], 0, 30, None, 0, false, false, false, false, [PlayerScore("You", 0, false)])
  }

  /** `questions[questionIndex]`, `None` when the index is past the end. */
  function Current(s: Session): (q: Option<Question>)
    ensures q.Some? <==> s.questionIndex < |s.questions|
    ensures q.Some? ==> q.value in s.questions
  {
    if s.questionIndex < |s.questions| then Some(s.questions[s.questionIndex]) else None
  }

  function CurrentKind(s: Session): Option<QuestionType> {
    match Current(s)
    case None => None
    case Some(q) => Some(q.kind)
  }

  /** The question set a load keeps: the first ten of the shuffled data. */
  function FirstTen(data: seq<Question>, swaps: seq<(nat, nat)>): (r: seq<Question>)
    ensures |r| == if |data| < 10 then |data| else 10
    ensures multiset(r) <= multiset(data)
    ensures forall q :: q in r ==> q in data
  {
    var shuffled := Shuffle(data, swaps);
    var n := if |data| < 10 then |data| else 10;
    assert shuffled == shuffled[..n] + shuffled[n..];
    assert forall q :: q in shuffled[..n] ==> q in multiset(shuffled);
    shuffled[..n]
  }

  /** `loadQuestions` once the data has arrived (after the fallback refetch
      when a category gave nothing): a non-empty list replaces the questions
      by at most ten of its entries in random order; an empty one changes
      nothing. */
  function Load(s: Session, data: seq<Question>, swaps: seq<(nat, nat)>): (r: Session)
    ensures |data| > 0 ==> r == s.(questions := FirstTen(data, swaps))
    ensures |data| == 0 ==> r == s
  {
    if |data| > 0 then s.(questions := FirstTen(data, swaps)) else s
  }

  /** The reset when a question becomes current: the full time budget of its
      type, no selection, not submitted, no result shown, not correct.  With no
      current question nothing happens. */
  function Begin(s: Session): (r: Session)
    ensures Current(s).None? ==> r == s
    ensures Current(s).Some? ==>
      r == s.(secondsLeft := QuestionTime(CurrentKind(s)), selected := None,
              submitted := false, showResult := false, isCorrect := false)
  {
    if Current(s).None? then s
    else s.(secondsLeft := QuestionTime(CurrentKind(s)), selected := None,
            submitted := false, showResult := false, isCorrect := false)
  }

  /** One interval tick; the interval only runs while there is a current
      question. */
  function Tick(s: Session): (r: Session)
    ensures Current(s).Some? ==> r == s.(secondsLeft := NextSecond(s.secondsLeft))
    ensures Current(s).None? ==> r == s
  {
    if Current(s).None? then s else s.(secondsLeft := NextSecond(s.secondsLeft))
  }

  /** `handleTimeout`: an unsubmitted question becomes submitted, shown and
      incorrect; the score does not move. */
  function Timeout(s: Session): (r: Session)
    ensures r.submitted && r.score == s.score
    ensures !s.submitted ==> r == s.(submitted := true, showResult := true, isCorrect := false)
    ensures s.submitted ==> r == s
  {
    if !s.submitted then s.(submitted := true, showResult := true, isCorrect := false) else s
  }

  /** The timeout effect: fires when the countdown is at 0 and nothing was
      submitted. */
  function CheckTimeout(s: Session): (r: Session)
    ensures s.secondsLeft == 0 && !s.submitted ==> r == Timeout(s)
    ensures s.secondsLeft != 0 || s.submitted ==> r == s
  {
    if s.secondsLeft == 0 && !s.submitted then Timeout(s) else s
  }

  /** `handleSelect`: ignored when the time is up or the answer is in. */
  function Select(s: Session, index: int): (r: Session)
    ensures s.secondsLeft == 0 || s.submitted ==> r == s
    ensures s.secondsLeft != 0 && !s.submitted ==> r == s.(selected := Some(index))
  {
    if s.secondsLeft == 0 || s.submitted then s else s.(selected := Some(index))
  }

  /** Whether `handleMultipleChoiceSubmit` gets past its guard. */
  predicate ChoiceAccepted(s: Session)
    requires Current(s).Some?
  {
    s.selected.Some? && !s.submitted && Current(s).value.options.Some?
  }

  /** Credits `points` for a correct answer, both in the score and in the
      "You" row of the leaderboard. */
  function Award(s: Session, correct: bool, points: int): Session {
    if correct then s.(score := s.score + points, leaderboard := MarkYou(s.leaderboard, s.score + points))
    else s
  }

  /** `handleMultipleChoiceSubmit`: without a selection, once submitted, or
      for a question without options, nothing happens.  Otherwise the answer
      is submitted and shown, it is correct exactly when the selected index is
      the correct index, and only a correct answer adds `points || 10`. */
  function SubmitChoice(s: Session): (r: Session)
    requires Current(s).Some?
    ensures !ChoiceAccepted(s) ==> r == s
    ensures ChoiceAccepted(s) ==>
      var q := Current(s).value;
      && r.submitted && r.showResult
      && r.isCorrect == ChoiceCorrect(s.selected.value, q.correctIndex)
      && r.score == s.score + (if r.isCorrect then PointsOr(q.points, 10) else 0)
      && r.leaderboard == (if r.isCorrect then MarkYou(s.leaderboard, r.score) else s.leaderboard)
      && r.questions == s.questions && r.questionIndex == s.questionIndex
      && r.secondsLeft == s.secondsLeft && r.selected == s.selected
      && r.matchFinished == s.matchFinished
  {
    if !ChoiceAccepted(s) then s
    else
      var q := Current(s).value;
      var correct := ChoiceCorrect(s.selected.value, q.correctIndex);
      Award(s.(submitted := true, showResult := true, isCorrect := correct), correct, PointsOr(q.points, 10))
  }

  /** `handleInteractiveAnswer`: nothing once submitted; otherwise the answer
      is submitted and shown with the verdict it came with, and only a correct
      answer adds `points || 20`. */
  function SubmitInteractive(s: Session, correct: bool): (r: Session)
    requires Current(s).Some?
    ensures s.submitted ==> r == s
    ensures !s.submitted ==>
      var q := Current(s).value;
      && r.submitted && r.showResult && r.isCorrect == correct
      && r.score == s.score + (if correct then PointsOr(q.points, 20) else 0)
      && r.leaderboard == (if correct then MarkYou(s.leaderboard, r.score) else s.leaderboard)
      && r.questions == s.questions && r.questionIndex == s.questionIndex
      && r.secondsLeft == s.secondsLeft && r.selected == s.selected
      && r.matchFinished == s.matchFinished
  {
    if s.submitted then s
    else
      var q := Current(s).value;
      Award(s.(submitted := true, showResult := true, isCorrect := correct), correct, PointsOr(q.points, 20))
  }

  /** The drag-drop question's answer handler: the verdict is the comparison
      of the submitted order with the answer key. */
  function SubmitOrder(s: Session, order: seq<int>): (r: Session)
    requires Current(s).Some? && Current(s).value.correctOrder.Some?
    ensures !s.submitted ==> r.isCorrect == (order == Current(s).value.correctOrder.value)
    ensures r == SubmitInteractive(s, SameSerialisation(order, Current(s).value.correctOrder.value))
  {
    SubmitInteractive(s, SameSerialisation(order, Current(s).value.correctOrder.value))
  }

  /** `handleNext`: on the last question the match is finished; otherwise the
      next question becomes current. */
  function Next(s: Session): (r: Session)
    ensures s.questionIndex == |s.questions| - 1 ==> r == s.(matchFinished := true)
    ensures s.questionIndex != |s.questions| - 1 ==> r == s.(questionIndex := s.questionIndex + 1)
  {
    if s.questionIndex == |s.questions| - 1 then s.(matchFinished := true)
    else s.(questionIndex := s.questionIndex + 1)
  }

  /** The match-event subscriber: a score update rebuilds the leaderboard,
      a settled question shows the result, other events change nothing. */
  function OnMatchEvent(s: Session, event: LineraClient.MatchEvent): (r: Session)
    ensures event.ScoreUpdated? ==> r == s.(leaderboard := Leaderboard(event.scores))
    ensures event.QuestionSettled? ==> r == s.(showResult := true)
    ensures !event.ScoreUpdated? && !event.QuestionSettled? ==> r == s
  {
    match event
    case ScoreUpdated(scores) => s.(leaderboard := Leaderboard(scores))
    case QuestionSettled(_) => s.(showResult := true)
    case _ => s
  }

  // ---------------------------------------------------------------------------
  // What the transitions promise together.
  // ---------------------------------------------------------------------------

  /** The submitted flag blocks double scoring: a second multiple-choice
      submit changes nothing. */
  lemma SubmitChoiceScoresOnce(s: Session)
    requires Current(s).Some?
    ensures Current(SubmitChoice(s)).Some?
    ensures SubmitChoice(SubmitChoice(s)) == SubmitChoice(s)
  {
    var once := SubmitChoice(s);
    if ChoiceAccepted(s) {
      assert once.submitted;
    }
  }

  /** Likewise, a second interactive answer changes nothing, whatever its
      verdict. */
  lemma SubmitInteractiveScoresOnce(s: Session, first: bool, second: bool)
    requires Current(s).Some?
    ensures Current(SubmitInteractive(s, first)).Some?
    ensures SubmitInteractive(SubmitInteractive(s, first), second) == SubmitInteractive(s, first)
  {
  }

  /** After a timeout, no answer can score: the multiple-choice submit and the
      interactive answer both leave the state as the timeout left it. */
  lemma NoScoreAfterTimeout(s: Session, correct: bool)
    requires Current(s).Some?
    ensures Current(Timeout(s)).Some?
    ensures SubmitChoice(Timeout(s)) == Timeout(s)
    ensures SubmitInteractive(Timeout(s), correct) == Timeout(s)
    ensures SubmitChoice(Timeout(s)).score == s.score
  {
    assert Current(Timeout(s)) == Current(s);
  }

  /** With non-negative points the score never falls, whatever is submitted. */
  lemma ScoreNeverFalls(s: Session, correct: bool)
    requires Current(s).Some?
    requires Current(s).value.points.None? || Current(s).value.points.value >= 0
    ensures SubmitChoice(s).score >= s.score
    ensures SubmitInteractive(s, correct).score >= s.score
    ensures Timeout(s).score == s.score
  {
  }

  /** Starting from the first question, `k` presses of Next reach question
      `k` while questions remain, and the press on the last question finishes
      the match. */
  lemma {:induction false} NextWalksTheQuestions(s: Session, k: nat)
    requires s.questionIndex == 0 && 0 < |s.questions| && k < |s.questions|
    ensures NextTimes(s, k).questionIndex == k && NextTimes(s, k).matchFinished == s.matchFinished
    ensures k == |s.questions| - 1 ==> Next(NextTimes(s, k)).matchFinished
    decreases k
  {
    if k > 0 {
      NextWalksTheQuestions(s, k - 1);
    }
  }

  /** `k` presses of Next. */
  function NextTimes(s: Session, k: nat): (r: Session)
    ensures r.questions == s.questions
    decreases k
  {
    if k == 0 then s else Next(NextTimes(s, k - 1))
  }

  // ---------------------------------------------------------------------------
  // Any sequence of handler calls.
  // ---------------------------------------------------------------------------

  /** The screen's handlers as events.  The submit handlers are only
      rendered with a current question (and the drag-drop one with an answer
      key), so without one they are taken to change nothing. */
  datatype ScreenEvent =
    | Loaded(data: seq<Question>, swaps: seq<(nat, nat)>)
    | QuestionBegins
    | SecondPassed
    | TimedOut
    | TimeoutChecked
    | Selected(index: int)
    | ChoiceSubmitted
    | InteractiveAnswered(correct: bool)
    | OrderSubmitted(order: seq<int>)
    | NextPressed
    | MatchEventArrived(event: LineraClient.MatchEvent)

  function Apply(s: Session, e: ScreenEvent): Session {
    match e
    case Loaded(data, swaps) => Load(s, data, swaps)
    case QuestionBegins => Begin(s)
    case SecondPassed => Tick(s)
    case TimedOut => Timeout(s)
    case TimeoutChecked => CheckTimeout(s)
    case Selected(index) => Select(s, index)
    case ChoiceSubmitted => if Current(s).Some? then SubmitChoice(s) else s
    case InteractiveAnswered(correct) => if Current(s).Some? then SubmitInteractive(s, correct) else s
    case OrderSubmitted(order) =>
      if Current(s).Some? && Current(s).value.correctOrder.Some? then SubmitOrder(s, order) else s
    case NextPressed => Next(s)
    case MatchEventArrived(event) => OnMatchEvent(s, event)
  }

  function ApplyAll(s: Session, events: seq<ScreenEvent>): Session
    decreases |events|
  {
    if events == [] then s else ApplyAll(Apply(s, events[0]), events[1..])
  }

  /** Only the start of a question clears the submitted flag. */
  lemma OnlyBeginClearsSubmitted(s: Session, e: ScreenEvent)
    ensures s.submitted && !Apply(s, e).submitted ==> e.QuestionBegins?
  {
  }

  /** Once an answer is in (or the time ran out), no handler scores until the
      next question begins: the flag stays set and the score stays put. */
  lemma {:induction false} NoScoringUntilNextBegin(s: Session, events: seq<ScreenEvent>)
    requires s.submitted
    requires forall i :: 0 <= i < |events| ==> !events[i].QuestionBegins?
    ensures ApplyAll(s, events).submitted && ApplyAll(s, events).score == s.score
    decreases |events|
  {
    if events != [] {
      var next := Apply(s, events[0]);
      assert next.submitted && next.score == s.score;
      NoScoringUntilNextBegin(next, events[1..]);
    }
  }

  predicate NonNegativePoints(questions: seq<Question>) {
    forall q :: q in questions ==> q.points.None? || q.points.value >= 0
  }

  /** One handler with non-negative points on the questions never lowers the
      score, and a load keeps the points non-negative. */
  lemma ApplyNeverLowersScore(s: Session, e: ScreenEvent)
    requires NonNegativePoints(s.questions)
    requires e.Loaded? ==> NonNegativePoints(e.data)
    ensures Apply(s, e).score >= s.score
    ensures NonNegativePoints(Apply(s, e).questions)
  {
    if Current(s).Some? {
      ScoreNeverFalls(s, e.InteractiveAnswered? && e.correct);
      if e.OrderSubmitted? && Current(s).value.correctOrder.Some? {
        ScoreNeverFalls(s, SameSerialisation(e.order, Current(s).value.correctOrder.value));
      }
    }
  }

  /** Over any sequence of handler calls whose questions carry non-negative
      points, the score never falls. */
  lemma {:induction false} ScoreNeverFallsOverRun(s: Session, events: seq<ScreenEvent>)
    requires NonNegativePoints(s.questions)
    requires forall i :: 0 <= i < |events| && events[i].Loaded? ==> NonNegativePoints(events[i].data)
    ensures ApplyAll(s, events).score >= s.score
    decreases |events|
  {
    if events != [] {
      ApplyNeverLowersScore(s, events[0]);
      ScoreNeverFallsOverRun(Apply(s, events[0]), events[1..]);
    }
  }

  // ---------------------------------------------------------------------------
  // The screen as an object whose fields the handlers update.
  // ---------------------------------------------------------------------------

  class GameScreenApp {
    const actualMatchId: string
    const selectedCategory: string
    var questions: seq<Question>
    var questionIndex: nat
    var secondsLeft: int
    var selected: Option<int>
    var score: int
    var submitted: bool
    var showResult: bool
    var isCorrect: bool
    var matchFinished: bool
    var leaderboard: seq<PlayerScore>

    function State(): Session
      reads this
    {
      Session(questions, questionIndex, secondsLeft, selected, score, submitted,
              showResult, isCorrect, matchFinished, leaderboard)
    }

    constructor (matchId: string)
      ensures (actualMatchId, selectedCategory) == ParseMatchId(matchId)
      ensures State() == InitialSession()
    {
      var parsed := ParseMatchId(matchId);
      actualMatchId := parsed.0;
      selectedCategory := parsed.1;
      questions := [];
      questionIndex := 0;
      secondsLeft := 30;
      selected := None;
      score := 0;
      submitted := false;
      showResult := false;
      isCorrect := false;
      matchFinished := false;
      leaderboard := [PlayerScore("You", 0, false)];
    }

    method LoadQuestions(data: seq<Question>, swaps: seq<(nat, nat)>)
      modifies this
      ensures State() == Load(old(State()), data, swaps)
    {
      if |data| > 0 {
        questions := FirstTen(data, swaps);
      }
    }

    method BeginQuestion()
      modifies this
      ensures State() == Begin(old(State()))
    {
      if questionIndex >= |questions| {
        return;
      }
      secondsLeft := QuestionTime(Some(questions[questionIndex].kind));
      selected := None;
      submitted := false;
      showResult := false;
      isCorrect := false;
    }

    method TickSecond()
      modifies this
      ensures State() == Tick(old(State()))
    {
      if questionIndex < |questions| {
        secondsLeft := if secondsLeft > 0 then secondsLeft - 1 else 0;
      }
    }

    method HandleTimeout()
      modifies this
      ensures State() == Timeout(old(State()))
    {
      if !submitted {
        submitted := true;
        showResult := true;
        isCorrect := false;
      }
    }

    method CheckTimeoutEffect()
      modifies this
      ensures State() == CheckTimeout(old(State()))
    {
      if secondsLeft == 0 && !submitted {
        HandleTimeout();
      }
    }

    method HandleSelect(index: int)
      modifies this
      ensures State() == Select(old(State()), index)
    {
      if secondsLeft == 0 || submitted {
        return;
      }
      selected := Some(index);
    }

    /** Returns whether an answer went out to the chain. */
    method HandleMultipleChoiceSubmit() returns (sent: bool)
      requires Current(State()).Some?
      modifies this
      ensures sent == ChoiceAccepted(old(State()))
      ensures State() == SubmitChoice(old(State()))
    {
      var current := questions[questionIndex];
      if selected.None? || submitted || current.options.None? {
        return false;
      }
      submitted := true;
      showResult := true;
      var correct := current.correctIndex == Some(selected.value);
      isCorrect := correct;
      var points := PointsOr(current.points, 10);
      if correct {
        var newScore := score + points;
        score := newScore;
        leaderboard := MarkYou(leaderboard, newScore);
      }
      sent := true;
    }

    /** Returns whether an answer went out to the chain. */
    method HandleInteractiveAnswer(correct: bool) returns (sent: bool)
      requires Current(State()).Some?
      modifies this
      ensures sent == !old(submitted)
      ensures State() == SubmitInteractive(old(State()), correct)
    {
      if submitted {
        return false;
      }
      var current := questions[questionIndex];
      submitted := true;
      showResult := true;
      isCorrect := correct;
      var points := if correct then PointsOr(current.points, 20) else 0;
      if correct {
        var newScore := score + points;
        score := newScore;
        leaderboard := MarkYou(leaderboard, newScore);
      }
      sent := true;
    }

    method HandleDragDropAnswer(order: seq<int>) returns (sent: bool)
      requires Current(State()).Some? && Current(State()).value.correctOrder.Some?
      modifies this
      ensures sent == !old(submitted)
      ensures State() == SubmitOrder(old(State()), order)
    {
      var correct := SameSerialisation(order, questions[questionIndex].correctOrder.value);
      sent := HandleInteractiveAnswer(correct);
    }

    method HandleNext()
      modifies this
      ensures State() == Next(old(State()))
    {
      if questionIndex == |questions| - 1 {
        matchFinished := true;
      } else {
        questionIndex := questionIndex + 1;
      }
    }

    method HandleMatchEvent(event: LineraClient.MatchEvent)
      modifies this
      ensures State() == OnMatchEvent(old(State()), event)
    {
      match event {
        case ScoreUpdated(scores) =>
          leaderboard := Leaderboard(scores);
        case QuestionSettled(_) =>
          showResult := true;
        case _ =>
      }
    }
  }

  /** Pressing Submit twice on the same multiple-choice question: the second
      press sends nothing and scores nothing. */
  method SubmitTwice(screen: GameScreenApp) returns (first: bool, second: bool)
    requires Current(screen.State()).Some?
    modifies screen
    ensures !second
    ensures screen.State() == SubmitChoice(old(screen.State()))
  {
    first := screen.HandleMultipleChoiceSubmit();
    SubmitChoiceScoresOnce(old(screen.State()));
    second := screen.HandleMultipleChoiceSubmit();
  }
}
