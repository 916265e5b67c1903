/** The question records of the QuizRace question bank, as the question
    service serves them and the game screen reads them. */
module QuestionBank {
  import opened Common

  datatype QuestionType = MultipleChoice | PhysicsSimulation | DragDrop | Coding | Puzzle

  /** One bank entry.  Optional JSON fields are `Option`s; the simulation
      parameters, the code template and the code test cases are not part of
      this model. */
  datatype Question = Question(
    id: int,
    kind: QuestionType,
    category: Option<string>,
    text: string,
    options: Option<seq<string>>,
    correctIndex: Option<int>,
    blocks: Option<seq<string>>,
    correctOrder: Option<seq<int>>,
    points: Option<int>)
}
