/** The match contract: a state machine over a match's status and a table of
    per-player scores, driven by four operations and read by two queries. */
module MatchContract {

  /** Rust's `u8` and `u32`. */
  type u8 = x: int | 0 <= x < 0x100
  type u32 = x: int | 0 <= x < 0x1_0000_0000

  const U32_MAX: u32 := 0xFFFF_FFFF

  /** The fixed credit of every submitted answer. */
  const POINTS_PER_ANSWER: u32 := 10

  /** An account owner, represented by its string form (`Owner::to_string`),
      which is also the key of the score table. */
  type Owner = string

  /** The owner an unset `host` register reads as. */
  const DEFAULT_OWNER: Owner := ""

  datatype MatchStatus = Waiting | Active | Finished

  datatype MatchOperation =
    | CreateMatch(host: Owner, questionCount: u8)
    | StartMatch
    | SubmitAnswer(player: Owner, questionIndex: u8, answer: string)
    | FinalizeMatch

  datatype MatchQuery = GetState | GetScores

  datatype MatchStateView = MatchStateView(
    host: Owner, status: MatchStatus, questionIndex: u8, totalQuestions: u8)

  datatype MatchResponse = State(view: MatchStateView) | Scores(entries: seq<(string, u32)>)

  /** The contract's storage as one value: four registers and the score map. */
  datatype MatchState = MatchState(
    host: Owner, status: MatchStatus, questionIndex: u8, totalQuestions: u8,
    scores: map<string, u32>)

  /** A player's score, an absent entry reading as 0. */
  function ScoreOf(scores: map<string, u32>, player: string): u32 {
    if player in scores then scores[player] else 0
  }

  /** The score update of SubmitAnswer as the source writes it: `current + 10`
      on a `u32`, which wraps around in a release build: below the last ten
      values it adds 10, within them it lowers the score. */
  function CreditAsWritten(scores: map<string, u32>, player: string): (r: map<string, u32>)
    ensures r.Keys == scores.Keys + {player}
    ensures ScoreOf(scores, player) <= U32_MAX - POINTS_PER_ANSWER ==>
              r[player] == ScoreOf(scores, player) + POINTS_PER_ANSWER
    ensures ScoreOf(scores, player) > U32_MAX - POINTS_PER_ANSWER ==>
              r[player] < ScoreOf(scores, player)
    ensures forall p :: p in scores && p != player ==> r[p] == scores[p]
  {
    scores[player := (ScoreOf(scores, player) + POINTS_PER_ANSWER) % 0x1_0000_0000]
  }

  /** The score update the contract intends: +10, saturating at `u32::MAX`
      instead of wrapping. */
  function Credit(scores: map<string, u32>, player: string): (r: map<string, u32>)
    ensures r.Keys == scores.Keys + {player}
    ensures r[player] >= ScoreOf(scores, player)
    ensures ScoreOf(scores, player) <= U32_MAX - POINTS_PER_ANSWER ==>
              r[player] == ScoreOf(scores, player) + POINTS_PER_ANSWER
    ensures forall p :: p in scores && p != player ==> r[p] == scores[p]
  {
    var current := ScoreOf(scores, player);
    scores[player := if current <= U32_MAX - POINTS_PER_ANSWER then current + POINTS_PER_ANSWER else U32_MAX]
  }

  /** `execute_operation` on the storage value.  Only SubmitAnswer touches
      the scores and it touches nothing else; only StartMatch moves the
      question index. */
  function Step(s: MatchState, op: MatchOperation): (r: MatchState)
    ensures !op.SubmitAnswer? ==> r.scores == s.scores
    ensures op.SubmitAnswer? ==> r == s.(scores := r.scores)
    ensures r.questionIndex != s.questionIndex ==> op.StartMatch? && r.questionIndex == 0
  {
    match op
    case CreateMatch(host, count) => s.(host := host, totalQuestions := count, status := Waiting)
    case StartMatch => if s.status == Waiting then s.(status := Active, questionIndex := 0) else s
    case SubmitAnswer(player, _, _) => s.(scores := Credit(s.scores, player))
    case FinalizeMatch => s.(status := Finished)
  }

  /** A sequence of operations executed in order. */
  function Run(s: MatchState, ops: seq<MatchOperation>): MatchState
    decreases |ops|
  {
    if ops == [] then s else Run(Step(s, ops[0]), ops[1..])
  }

  /** CreateMatch records the host and the question count and puts the match
      back to Waiting from any status; the question index and the scores stay. */
  lemma CreateMatchResets(s: MatchState, host: Owner, count: u8)
    ensures var r := Step(s, CreateMatch(host, count));
      r.host == host && r.totalQuestions == count && r.status == Waiting
      && r.questionIndex == s.questionIndex && r.scores == s.scores
  {
  }

  /** StartMatch moves Waiting to Active with question index 0, and changes
      nothing in any other status. */
  lemma StartMatchOnlyFromWaiting(s: MatchState)
    ensures var r := Step(s, StartMatch);
      (s.status == Waiting ==> r == s.(status := Active, questionIndex := 0))
      && (s.status != Waiting ==> r == s)
  {
  }

  /** SubmitAnswer credits exactly the submitting player with 10 points (an
      absent player counting as 0), whatever the answer, the question index and
      the status; every other player's score and every register stay. */
  lemma SubmitAnswerCreditsOnlyPlayer(s: MatchState, player: Owner, index: u8, answer: string)
    requires ScoreOf(s.scores, player) <= U32_MAX - POINTS_PER_ANSWER
    ensures var r := Step(s, SubmitAnswer(player, index, answer));
      r.scores.Keys == s.scores.Keys + {player}
      && r.scores[player] == ScoreOf(s.scores, player) + POINTS_PER_ANSWER
      && (forall p :: p in s.scores && p != player ==> r.scores[p] == s.scores[p])
      && r.host == s.host && r.status == s.status
      && r.questionIndex == s.questionIndex && r.totalQuestions == s.totalQuestions
  {
  }

  /** FinalizeMatch ends the match from any status and touches nothing else. */
  lemma FinalizeMatchFromAnyStatus(s: MatchState)
    ensures Step(s, FinalizeMatch) == s.(status := Finished)
  {
  }

  /** One operation never lowers a score nor drops a player. */
  lemma StepNeverLowersScores(s: MatchState, op: MatchOperation)
    ensures forall p :: p in s.scores ==>
      p in Step(s, op).scores && Step(s, op).scores[p] >= s.scores[p]
  {
  }

  /** Scores are non-decreasing over any sequence of operations. */
  lemma {:induction false} RunNeverLowersScores(s: MatchState, ops: seq<MatchOperation>)
    ensures forall p :: p in s.scores ==>
      p in Run(s, ops).scores && Run(s, ops).scores[p] >= s.scores[p]
    decreases |ops|
  {
    if ops != [] {
      StepNeverLowersScores(s, ops[0]);
      RunNeverLowersScores(Step(s, ops[0]), ops[1..]);
    }
  }

  /** The number of SubmitAnswer operations of `player` in `ops`. */
  function Submissions(ops: seq<MatchOperation>, player: Owner): nat {
    if ops == [] then 0
    else (if ops[0].SubmitAnswer? && ops[0].player == player then 1 else 0) + Submissions(ops[1..], player)
  }

  /** Every SubmitAnswer in a run credits its player: the final score is the
      initial one plus 10 per submission, as long as it stays within `u32`. */
  lemma {:induction false} RunCreditsEverySubmission(s: MatchState, ops: seq<MatchOperation>, player: Owner)
    requires ScoreOf(s.scores, player) + POINTS_PER_ANSWER * Submissions(ops, player) <= U32_MAX
    ensures ScoreOf(Run(s, ops).scores, player)
            == ScoreOf(s.scores, player) + POINTS_PER_ANSWER * Submissions(ops, player)
    decreases |ops|
  {
    if ops != [] {
      RunCreditsEverySubmission(Step(s, ops[0]), ops[1..], player);
    }
  }

  /** The wrap-around of the code as written: a player at 4294967286 points who
      submits once more drops to 0. */
  lemma CreditAsWrittenLowersScore()
    ensures var before := map["p" := 0xFFFF_FFF6];
      CreditAsWritten(before, "p")["p"] == 0 < before["p"]
  {
  }

  /** The contract with its storage as fields. */
  class MatchApp {
    var host: Owner
    var status: MatchStatus
    var questionIndex: u8
    var totalQuestions: u8
    var scores: map<string, u32>

    function Storage(): MatchState
      reads this
    {
      MatchState(host, status, questionIndex, totalQuestions, scores)
    }

    /** `initialize`: the match waits at question 0; the other registers
        hold their defaults and no player has a score. */
    constructor Initialize()
      ensures status == Waiting && questionIndex == 0
      ensures host == DEFAULT_OWNER && totalQuestions == 0 && scores == map[]
    {
      host := DEFAULT_OWNER;
      status := Waiting;
      questionIndex := 0;
      totalQuestions := 0;
      scores := map[];
    }

    method ExecuteOperation(op: MatchOperation)
      modifies this
      ensures Storage() == Step(old(Storage()), op)
    {
      match op {
        case CreateMatch(h, count) =>
          host := h;
          totalQuestions := count;
          status := Waiting;
        case StartMatch =>
          if status == Waiting {
            status := Active;
            questionIndex := 0;
          }
        case SubmitAnswer(player, _, _) =>
          var current := if player in scores then scores[player] else 0;
          scores := scores[player := if current <= U32_MAX - POINTS_PER_ANSWER
                                     then current + POINTS_PER_ANSWER else U32_MAX];
        case FinalizeMatch =>
          status := Finished;
      }
    }

    /** The GetScores loop: one (player, score) pair per entry of the map, in
        the order the map is iterated. */
    method ListScores() returns (entries: seq<(string, u32)>)
      ensures |entries| == |scores|
      ensures forall i :: 0 <= i < |entries| ==>
        entries[i].0 in scores && entries[i].1 == scores[entries[i].0]
      ensures forall i, j :: 0 <= i < j < |entries| ==> entries[i].0 != entries[j].0
      ensures forall p :: p in scores ==> (p, scores[p]) in entries
    {
      var remaining := scores.Keys;
      entries := [];
      while remaining != {}
        invariant remaining <= scores.Keys
        invariant |entries| + |remaining| == |scores.Keys|
        invariant forall i :: 0 <= i < |entries| ==>
          entries[i].0 in scores && entries[i].0 !in remaining && entries[i].1 == scores[entries[i].0]
        invariant forall i, j :: 0 <= i < j < |entries| ==> entries[i].0 != entries[j].0
        invariant forall p :: p in scores && p !in remaining ==> (p, scores[p]) in entries
        decreases remaining
      {
        var p :| p in remaining;
        entries := entries + [(p, scores[p])];
        remaining := remaining - {p};
      }
    }

    /** `handle_query`: GetState mirrors the four registers, GetScores lists
        the score map. */
    method HandleQuery(query: MatchQuery) returns (response: MatchResponse)
      ensures query.GetState? ==>
        response == State(MatchStateView(host, status, questionIndex, totalQuestions))
      ensures query.GetScores? ==> (
        && response.Scores?
        && |response.entries| == |scores|
        && (forall i :: 0 <= i < |response.entries| ==>
              response.entries[i].0 in scores && response.entries[i].1 == scores[response.entries[i].0])
        && (forall p :: p in scores ==> (p, scores[p]) in response.entries))
    {
      match query {
        case GetState =>
          response := State(MatchStateView(host, status, questionIndex, totalQuestions));
        case GetScores =>
          var entries := ListScores();
          response := Scores(entries);
      }
    }
  }
}
