/** The question service: a commit/reveal store for questions of the bank,
    and the category selection of the question lists. */
module QuestionService {
  import opened Common
  import opened QuestionBank

  /** What the store keeps under a commit id. */
  datatype Commitment = Commitment(question: Question, salt: string)

  /** The reply of `/commit_question`. */
  datatype CommitReceipt = CommitReceipt(commitId: string, commitHash: string)

  /** The reply of `/reveal_question`. */
  datatype Revelation = Revelation(question: Question, salt: string, commitHash: string)

  /** The two 400 replies. */
  datatype ServiceError = UnknownQuestionId | UnknownCommitId

  /** `hashQuestion`: the SHA-256 digest, in hex, of `text|salt`.  The digest
      function itself is a parameter. */
  function HashQuestion(sha256: string -> string, text: string, salt: string): (r: string)
    ensures r == sha256(text + "|" + salt)
  {
    sha256(text + "|" + salt)
  }

  /** `questions.find(q => q.id === questionId)`, as the index of the first
      question with that id. */
  function FindIndex(bank: seq<Question>, id: int): (r: Option<nat>)
    ensures r.None? <==> forall i :: 0 <= i < |bank| ==> bank[i].id != id
    ensures r.Some? ==> (r.value < |bank| && bank[r.value].id == id
      && forall j :: 0 <= j < r.value ==> bank[j].id != id)
  {
    if bank == [] then None
    else if bank[0].id == id then Some(0)
    else match FindIndex(bank[1..], id)
      case None => None
      case Some(i) => Some(i + 1)
  }

  /** The question `find` returns: the first with the id, or nothing. */
  function FindQuestion(bank: seq<Question>, id: int): (r: Option<Question>)
    ensures r.None? <==> forall q :: q in bank ==> q.id != id
    ensures r.Some? ==> r.value in bank && r.value.id == id
    ensures r.Some? ==>
      exists i :: 0 <= i < |bank| && bank[i] == r.value && (forall j :: 0 <= j < i ==> bank[j].id != id)
  {
    match FindIndex(bank, id)
    case None => None
    case Some(i) => Some(bank[i])
  }

  /** The lookup of `/reveal_question`: the committed question and salt, with
      the hash recomputed from them.  The entry is read, not removed. */
  function Reveal(commits: map<string, Commitment>, sha256: string -> string, commitId: string)
    : (r: Result<Revelation, ServiceError>)
    ensures r.Err? <==> commitId !in commits
    ensures r.Err? ==> r.error == UnknownCommitId
    ensures r.Ok? ==> (r.value.question == commits[commitId].question
      && r.value.salt == commits[commitId].salt
      && r.value.commitHash == HashQuestion(sha256, r.value.question.text, r.value.salt))
  {
    if commitId !in commits then Err(UnknownCommitId)
    else
      var c := commits[commitId];
      Ok(Revelation(c.question, c.salt, HashQuestion(sha256, c.question.text, c.salt)))
  }

  /** Revealing what was just committed gives back the question and the salt,
      with the very hash the commit returned. */
  lemma RevealAfterCommit(commits: map<string, Commitment>, sha256: string -> string,
                          q: Question, salt: string, commitId: string)
    ensures Reveal(commits[commitId := Commitment(q, salt)], sha256, commitId)
         == Ok(Revelation(q, salt, HashQuestion(sha256, q.text, salt)))
  {
  }

  /** `questions.filter(q => q.category === category)`. */
  function CategoryFilter(bank: seq<Question>, category: string): (r: seq<Question>)
    ensures forall q :: q in r <==> q in bank && q.category == Some(category)
    ensures multiset(r) <= multiset(bank)
  {
    if bank == [] then []
    else
      assert bank == [bank[0]] + bank[1..];
      (if bank[0].category == Some(category) then [bank[0]] else []) + CategoryFilter(bank[1..], category)
  }

  /** The filter keeps every matching entry with its multiplicity. */
  lemma {:induction false} CategoryFilterKeepsMatches(bank: seq<Question>, category: string, q: Question)
    requires q.category == Some(category)
    ensures multiset(CategoryFilter(bank, category))[q] == multiset(bank)[q]
  {
    if bank != [] {
      CategoryFilterKeepsMatches(bank[1..], category, q);
      var head := if bank[0].category == Some(category) then [bank[0]] else [];
      assert CategoryFilter(bank, category) == head + CategoryFilter(bank[1..], category);
      assert bank == [bank[0]] + bank[1..];
      assert multiset(bank)[q] == multiset{bank[0]}[q] + multiset(bank[1..])[q];
    }
  }

  /** The two list routes. */
  datatype ListRoute = AllQuestions | ByCategory(category: string)

  /** `/questions` and `/questions/:category`: "all", or a category no question
      has, gives the whole bank shuffled; any other category gives exactly its
      questions, in bank order.  `swaps` is the random shuffle. */
  function ListQuestions(bank: seq<Question>, route: ListRoute, swaps: seq<(nat, nat)>)
    : (r: seq<Question>)
    ensures (route.AllQuestions? || route.category == "all"
             || forall q :: q in bank ==> q.category != Some(route.category))
            ==> multiset(r) == multiset(bank)
    ensures (route.ByCategory? && route.category != "all"
             && exists q :: q in bank && q.category == Some(route.category))
            ==> r == CategoryFilter(bank, route.category)
                && (forall q :: q in r <==> q in bank && q.category == Some(route.category))
  {
    match route
    case AllQuestions => Shuffle(bank, swaps)
    case ByCategory(category) =>
      if category == "all" then Shuffle(bank, swaps)
      else
        var filtered := CategoryFilter(bank, category);
        if |filtered| == 0 then Shuffle(bank, swaps)
        else
          assert filtered[0] in filtered;
          filtered
  }

  /** The service, with the bank it loaded, the digest it uses and its
      in-memory commit store. */
  class QuestionServiceApp {
    const questions: seq<Question>
    const sha256: string -> string
    var commits: map<string, Commitment>

    constructor (questions: seq<Question>, sha256: string -> string)
      ensures this.questions == questions && this.sha256 == sha256
      ensures commits == map[]
    {
      this.questions := questions;
      this.sha256 := sha256;
      commits := map[];
    }

    /** `/commit_question`.  The random salt and commit id are inputs.  An
        unknown id is refused and leaves the store alone; a known one is
        stored under the commit id (replacing an entry already there). */
    method CommitQuestion(questionId: int, salt: string, commitId: string)
      returns (r: Result<CommitReceipt, ServiceError>)
      modifies this
      ensures FindQuestion(questions, questionId).None? ==>
        r == Err(UnknownQuestionId) && commits == old(commits)
      ensures FindQuestion(questions, questionId).Some? ==>
        var q := FindQuestion(questions, questionId).value;
        r == Ok(CommitReceipt(commitId, HashQuestion(sha256, q.text, salt)))
        && commits == old(commits)[commitId := Commitment(q, salt)]
    {
      var found := FindQuestion(questions, questionId);
      if found.None? {
        return Err(UnknownQuestionId);
      }
      var q := found.value;
      var commitHash := HashQuestion(sha256, q.text, salt);
      commits := commits[commitId := Commitment(q, salt)];
      r := Ok(CommitReceipt(commitId, commitHash));
    }

    /** `/reveal_question`: reads the store and changes nothing. */
    method RevealQuestion(commitId: string) returns (r: Result<Revelation, ServiceError>)
      ensures r == Reveal(commits, sha256, commitId)
    {
      if commitId !in commits {
        return Err(UnknownCommitId);
      }
      var c := commits[commitId];
      r := Ok(Revelation(c.question, c.salt, HashQuestion(sha256, c.question.text, c.salt)));
    }
  }

  /** A commit followed by two reveals of its id: both reveals return the
      committed question and salt with the committed hash, and the store is
      the same after them as after the commit. */
  method CommitThenRevealTwice(service: QuestionServiceApp, questionId: int, salt: string, commitId: string)
    returns (receipt: Result<CommitReceipt, ServiceError>,
             first: Result<Revelation, ServiceError>, second: Result<Revelation, ServiceError>)
    modifies service
    ensures receipt.Ok? ==> (first.Ok? && first == second
      && first.value.commitHash == receipt.value.commitHash
      && first.value.question.id == questionId
      && first.value.salt == salt)
    ensures receipt.Err? ==> service.commits == old(service.commits)
  {
    receipt := service.CommitQuestion(questionId, salt, commitId);
    first := service.RevealQuestion(commitId);
    second := service.RevealQuestion(commitId);
  }

  /** Two commits under the same salt of questions with the same text return
      the same hash: the hash reads the text and the salt, not the id, the
      options or the answer. */
  method CommitSameTextTwice(service: QuestionServiceApp, id1: int, id2: int, salt: string,
                             commitId1: string, commitId2: string)
    returns (first: Result<CommitReceipt, ServiceError>, second: Result<CommitReceipt, ServiceError>)
    modifies service
    ensures first.Ok? <==> FindQuestion(service.questions, id1).Some?
    ensures second.Ok? <==> FindQuestion(service.questions, id2).Some?
    ensures first.Ok? && second.Ok?
      && FindQuestion(service.questions, id1).value.text == FindQuestion(service.questions, id2).value.text
      ==> first.value.commitHash == second.value.commitHash
  {
    first := service.CommitQuestion(id1, salt, commitId1);
    second := service.CommitQuestion(id2, salt, commitId2);
  }
}
