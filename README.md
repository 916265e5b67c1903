# QuizRace match session protocol in Dafny

QuizRace is a real-time quiz duel. Its parts are:

- A Linera match contract keeps each match's status and a per-player score table.
- A small question service hands out questions under a commit/reveal scheme and serves them by category.
- A browser client subscribes to match events and submits answers.
- A game screen runs each question's countdown and scores the player's answers locally.
- A drag-and-drop question lets the player reorder code blocks.
- A lobby builds the `matchId|category` string the game screen is opened with.

This project models those six parts, one Dafny module each, and proves what each promises:

- `match_contract.dfy` (module `MatchContract`):
  - the contract's four operations as a step function over the storage value;
  - the `MatchApp` class, whose methods update the storage registers in place;
  - the two queries.
- `question_service.dfy` (module `QuestionService`):
  - the commit store, as a class over a `map`;
  - the hash, a SHA-256 function passed in as a parameter;
  - reveal, and the category selection of the question lists.
- `linera_client.dfy` (module `LineraClient`):
  - the client, as a class over its subscription registry and score cache;
  - subscribe and unsubscribe, as pure functions on the registry;
  - event delivery, as a loop in which a throwing subscriber does not stop the others;
  - the simulated score update.
- `game_screen.dfy` (module `GameScreen`):
  - parsing the match id, the time budget and the countdown;
  - the verdicts and points;
  - the leaderboard sort;
  - the screen's state, as a `Session` value with one pure transition per handler and a class whose handler methods follow those transitions.
- `drag_drop.dfy` (module `DragDrop`):
  - the splice-based move;
  - the question component, as a class whose order stays a permutation of the block indices it was mounted with, even when the next question's props arrive.
- `lobby.dfy` (module `Lobby`):
  - the strings the lobby enters a match with, and their round trip through the game screen's parser;
  - the page, as a class over its flags.
- `common.dfy` (module `Common`) holds what the others share:
  - `Option` and `Result`;
  - ordered JavaScript records;
  - the random shuffle, taken as a list of transpositions;
  - JavaScript's `split` with a one-character separator, and `trim`.
- `question_bank.dfy` (module `QuestionBank`) holds the question record.

Randomness, clocks and hashing are inputs of the model:

- the shuffles (`swaps`);
- salts, commit ids and wallet addresses;
- `Date.now()` (`stamp`);
- the digest function (`sha256`);
- whether a subscriber throws (`throws`).

In four places the code may surprise a reader. The model follows the code:

- A reveal does not consume the commit entry. Revealing twice gives the same answer.
- The contract has no commit or reveal operations, and no correctness check. Every SubmitAnswer adds 10 points, up to the `u32` ceiling (see Findings), whatever the answer and whatever the match status.
- The client's simulated score update also adds a flat 10 points. The game screen's local score is the only place where the verdict and the `points` field matter.
- `CreateMatch` does not reset the scores or the question index. Only StartMatch sets the question index, and only from Waiting.

Two more behaviours of the code are modelled as they are:

- The game screen renders the drag-drop question without a `key`. When one drag-drop question follows another, the component keeps the order of the first. With a different number of blocks, the second question can never be answered correctly (`DragDrop.StaleOrderOnNextQuestion`).
- The lobby's create handler enters the match with the category selected at the click, even when another category is selected while the match is being created.

## Model

| member | source | states |
|---|---|---|
| MatchContract.MatchApp.Initialize | quizrace/contracts/match_contract/src/lib.rs:76-79 | after initialization the match is Waiting at question 0; the other registers read as their defaults and no player has a score |
| MatchContract.CreateMatchResets | quizrace/contracts/match_contract/src/lib.rs:83-87 | CreateMatch sets the host and the question count and puts the status back to Waiting from any status; question index and scores are untouched |
| MatchContract.StartMatchOnlyFromWaiting | quizrace/contracts/match_contract/src/lib.rs:88-93 | StartMatch moves Waiting to Active with question index 0 and changes nothing from Active or Finished |
| MatchContract.SubmitAnswerCreditsOnlyPlayer | quizrace/contracts/match_contract/src/lib.rs:94-99 | SubmitAnswer adds exactly 10 to the submitting player's score (absent counts as 0), ignores the answer and the question index, and leaves every other score, the status, the index and the question count unchanged |
| MatchContract.Credit | quizrace/contracts/match_contract/src/lib.rs:96-98 | the score update adds 10 to the player (absent counts as 0) up to the `u32` ceiling, never lowers it, adds only the player as a key and keeps every other score |
| MatchContract.FinalizeMatchFromAnyStatus | quizrace/contracts/match_contract/src/lib.rs:100-102 | FinalizeMatch sets the status to Finished from any state and changes nothing else |
| MatchContract.StepNeverLowersScores | quizrace/contracts/match_contract/src/lib.rs:81-104 | no operation drops a player or lowers a score |
| MatchContract.RunNeverLowersScores | quizrace/contracts/match_contract/src/lib.rs:81-104 | over any sequence of operations, scores are non-decreasing and no player disappears |
| MatchContract.RunCreditsEverySubmission | quizrace/contracts/match_contract/src/lib.rs:94-99 | after any run, a player's score is the initial one plus 10 per SubmitAnswer of theirs, while it stays within `u32` |
| MatchContract.Step | quizrace/contracts/match_contract/src/lib.rs:81-104 | only SubmitAnswer touches the scores and it touches nothing else; only StartMatch moves the question index, and only to 0 |
| MatchContract.CreditAsWritten | quizrace/contracts/match_contract/src/lib.rs:96-98 | the unchecked update adds 10 below the last ten `u32` values and lowers the score within them, keeping every other score |
| MatchContract.CreditAsWrittenLowersScore | quizrace/contracts/match_contract/src/lib.rs:97-98 | with the unchecked `u32` addition, a player at 4294967286 points drops to 0 on one more submission |
| MatchContract.MatchApp.ExecuteOperation | quizrace/contracts/match_contract/src/lib.rs:81-104 | the registers and score map after an operation are exactly the step function applied to the ones before |
| MatchContract.MatchApp.ListScores | quizrace/contracts/match_contract/src/lib.rs:127-130 | the GetScores loop lists exactly one (player, score) pair per map entry, with distinct players and each player's stored score |
| MatchContract.MatchApp.HandleQuery | quizrace/contracts/match_contract/src/lib.rs:115-132 | GetState mirrors the four registers; GetScores lists every score entry once with its value |
| QuestionService.HashQuestion | quizrace/question_service/src/index.js:29-34 | the commit hash is the digest of the text, a `|` and the salt; the question's id, options and answer do not enter it |
| QuestionService.FindIndex | quizrace/question_service/src/index.js:38 | the lookup by id finds the first question with that id, and finds nothing exactly when no question has it |
| QuestionService.FindQuestion | quizrace/question_service/src/index.js:38 | `find` returns a question of the bank with that id, the first one, and nothing exactly when no question has the id |
| QuestionService.QuestionServiceApp.CommitQuestion | quizrace/question_service/src/index.js:36-51 | an unknown id is refused with the store unchanged; a known question is stored under the commit id with its salt, and the receipt carries the hash of its text and salt |
| QuestionService.Reveal | quizrace/question_service/src/index.js:53-69 | an unknown commit id is refused; a known one gives back the stored question and salt with the hash recomputed from them, and the store is only read |
| QuestionService.QuestionServiceApp.RevealQuestion | quizrace/question_service/src/index.js:53-69 | the reveal handler answers as the reveal function does and changes nothing |
| QuestionService.RevealAfterCommit | quizrace/question_service/src/index.js:44-47 | revealing what was just committed returns the question, the salt and the very hash the commit returned |
| QuestionService.CommitThenRevealTwice | quizrace/question_service/src/index.js:36-69 | after a successful commit, two reveals of its id agree with each other and with the committed hash, question id and salt; a refused commit leaves the store alone |
| QuestionService.CommitSameTextTwice | quizrace/question_service/src/index.js:36-51 | two successful commits under the same salt of questions with equal text return equal hashes |
| QuestionService.CategoryFilter | quizrace/question_service/src/index.js:84 | the filter keeps exactly the questions of the category, never more copies than the bank has |
| QuestionService.CategoryFilterKeepsMatches | quizrace/question_service/src/index.js:84 | every question of the category keeps its multiplicity |
| QuestionService.ListQuestions | quizrace/question_service/src/index.js:71-91 | "all", the plain route, or a category with no questions gives a permutation of the whole bank; any other category gives exactly its questions in bank order |
| LineraClient.OrElse | quizrace/frontend/src/services/lineraClient.ts:88 | `address || fallback`: a null or empty address gives the fallback |
| LineraClient.Without | quizrace/frontend/src/services/lineraClient.ts:168 | deleting a callback from a set keeps exactly the other callbacks, without duplicates |
| LineraClient.Subscribe | quizrace/frontend/src/services/lineraClient.ts:142-143 | subscribing creates the match's set on first use and adds the callback to it, leaving other matches alone and the registry well formed |
| LineraClient.Unsubscribe | quizrace/frontend/src/services/lineraClient.ts:165-177 | unsubscribing removes only that callback, drops the match once its set is empty, leaves other matches alone and keeps the registry well formed |
| LineraClient.UnsubscribeIdempotent | quizrace/frontend/src/services/lineraClient.ts:165-177 | calling the unsubscribe closure twice is the same as calling it once |
| LineraClient.UnsubscribeUndoesSubscribe | quizrace/frontend/src/services/lineraClient.ts:142-177 | for a callback not yet subscribed, subscribing and then unsubscribing gives back the registry as it was |
| LineraClient.WithoutAppended | quizrace/frontend/src/services/lineraClient.ts:162-168 | removing a callback just added to a set that lacked it gives back the set |
| LineraClient.Deliver | quizrace/frontend/src/services/lineraClient.ts:182-191 | every subscriber receives the event, in set order, whether or not an earlier one threw |
| LineraClient.ThrowingSubscriberDoesNotBlock | quizrace/frontend/src/services/lineraClient.ts:184-190 | with two subscribers of which the first throws, both are delivered the event |
| LineraClient.BumpScore | quizrace/frontend/src/services/lineraClient.ts:94-100 | the settled score table gives the player their cached score plus 10 (10 when absent), keeps every other entry and only adds the player as a key |
| LineraClient.LineraClientApp.constructor | quizrace/frontend/src/services/lineraClient.ts:22-25 | a new client is disconnected, without address, subscriptions or cached scores |
| LineraClient.LineraClientApp.ConnectWallet | quizrace/frontend/src/services/lineraClient.ts:27-41 | connecting records the generated address and marks the client connected |
| LineraClient.LineraClientApp.CachedScores | quizrace/frontend/src/services/lineraClient.ts:111-113 | the match's cached table, or the empty table for a match with none |
| LineraClient.LineraClientApp.SetCachedScores | quizrace/frontend/src/services/lineraClient.ts:115-117 | the match's cached table is replaced and nothing else changes |
| LineraClient.LineraClientApp.SubscribeToMatch | quizrace/frontend/src/services/lineraClient.ts:119-179 | the callback joins the match's set and the returned closure unsubscribes exactly that callback from that match |
| LineraClient.LineraClientApp.CallUnsubscribe | quizrace/frontend/src/services/lineraClient.ts:165-177 | calling the closure removes the callback from the match's set, and the match once the set is empty |
| LineraClient.LineraClientApp.EmitEvent | quizrace/frontend/src/services/lineraClient.ts:181-197 | every subscriber of the match is delivered the event, and a ScoreUpdated event replaces the match's cached scores |
| LineraClient.LineraClientApp.SubmitAnswer | quizrace/frontend/src/services/lineraClient.ts:85-90 | submitting emits AnswerSubmitted for the current address, or "unknown", to every subscriber, and changes no state |
| LineraClient.LineraClientApp.SettleSubmittedScore | quizrace/frontend/src/services/lineraClient.ts:93-102 | the delayed settlement emits a ScoreUpdated table with 10 more points for the current address, or "demo", and caches it |
| LineraClient.LineraClientApp.GetScores | quizrace/frontend/src/services/lineraClient.ts:215-246 | a non-empty cached table is returned as it is; otherwise a table with 0 for the current address, or "demo", is cached and returned |
| GameScreen.ParseMatchId | quizrace/frontend/src/components/GameScreen.tsx:60-62 | an id with a `|` gives the piece before the first `|` and the piece up to the next one; an id without one gives the id and "all" |
| GameScreen.QuestionTime | quizrace/frontend/src/components/GameScreen.tsx:81-84 | the budget is 120 s for coding, 60 s for physics simulation, 45 s for puzzle and 30 s for any other type or no question |
| GameScreen.NextSecond | quizrace/frontend/src/components/GameScreen.tsx:163 | a tick lowers a positive countdown by one and never goes below 0 |
| GameScreen.CountdownStopsAtZero | quizrace/frontend/src/components/GameScreen.tsx:160-166 | n ticks from s seconds leave s − n seconds, or 0 once n reaches s, and stay at 0 |
| GameScreen.PointsOr | quizrace/frontend/src/components/GameScreen.tsx:205 | `points || fallback`: absent or zero points give the fallback |
| GameScreen.ChoiceCorrect | quizrace/frontend/src/components/GameScreen.tsx:203 | a multiple-choice answer is correct exactly when the question has a correct index equal to the selection; without one nothing is correct |
| GameScreen.SameSerialisation | quizrace/frontend/src/components/GameScreen.tsx:416 | the drag-drop verdict holds exactly when the submitted order has the answer key's length and agrees with it at every position |
| GameScreen.Abbreviate | quizrace/frontend/src/components/GameScreen.tsx:184 | the leaderboard address is the first eight characters, "...", and the last six |
| GameScreen.Rows | quizrace/frontend/src/components/GameScreen.tsx:182-187 | one answered row per score entry, with its abbreviated address and its score |
| GameScreen.InsertByScorePermutes | quizrace/frontend/src/components/GameScreen.tsx:188 | inserting a row keeps every row and adds exactly that one |
| GameScreen.InsertByScoreSorted | quizrace/frontend/src/components/GameScreen.tsx:188 | inserting into rows sorted by non-increasing score keeps them sorted |
| GameScreen.SortByScore | quizrace/frontend/src/components/GameScreen.tsx:188 | the sort returns a permutation of the rows ordered by non-increasing score |
| GameScreen.Leaderboard | quizrace/frontend/src/components/GameScreen.tsx:181-190 | `updateLeaderboard` gives one row per score entry, a permutation of the entry rows, sorted by non-increasing score |
| GameScreen.LeaderboardListsEveryEntry | quizrace/frontend/src/components/GameScreen.tsx:181-190 | the leaderboard has one row per score entry, each entry's row appears in it, and it is sorted by non-increasing score |
| GameScreen.MarkYou | quizrace/frontend/src/components/GameScreen.tsx:210-214 | the "You" row takes the new score and is marked answered; every other row stays |
| GameScreen.InitialSession | quizrace/frontend/src/components/GameScreen.tsx:64-77 | the screen opens at question 0 with 30 s, no selection, score 0, nothing submitted or shown, and a single "You" row |
| GameScreen.Current | quizrace/frontend/src/components/GameScreen.tsx:79 | there is a current question exactly when the index is inside the question list |
| GameScreen.FirstTen | quizrace/frontend/src/components/GameScreen.tsx:116-120 | the loaded set has min(10, n) questions, all drawn from the data without extra copies |
| GameScreen.Load | quizrace/frontend/src/components/GameScreen.tsx:116-123 | non-empty data replaces the questions with at most ten of its entries in random order; empty data changes nothing |
| GameScreen.Begin | quizrace/frontend/src/components/GameScreen.tsx:135-142 | a new current question gets the full budget of its type, no selection, not submitted, no result, not correct |
| GameScreen.Tick | quizrace/frontend/src/components/GameScreen.tsx:160-166 | while a question is current a tick moves the countdown one step toward 0; otherwise nothing runs |
| GameScreen.Timeout | quizrace/frontend/src/components/GameScreen.tsx:266-272 | a timeout marks an unsubmitted question submitted, shown and incorrect, and never changes the score |
| GameScreen.CheckTimeout | quizrace/frontend/src/components/GameScreen.tsx:154-158 | the timeout fires exactly when the countdown is at 0 and nothing was submitted |
| GameScreen.Select | quizrace/frontend/src/components/GameScreen.tsx:192-195 | a selection is ignored once time is up or the answer is in, and recorded otherwise |
| GameScreen.SubmitChoice | quizrace/frontend/src/components/GameScreen.tsx:197-218 | nothing happens without a selection, once submitted, or without options; otherwise the answer is submitted and shown, is correct exactly when the selection equals the correct index, and only a correct answer adds `points || 10` to the score and the "You" row |
| GameScreen.SubmitInteractive | quizrace/frontend/src/components/GameScreen.tsx:220-240 | nothing happens once submitted; otherwise the answer is submitted and shown with its verdict, and only a correct answer adds `points || 20` |
| GameScreen.SubmitOrder | quizrace/frontend/src/components/GameScreen.tsx:411-418 | a drag-drop answer is correct exactly when the order equals the answer key |
| GameScreen.Next | quizrace/frontend/src/components/GameScreen.tsx:274-280 | Next on the last question (index = length − 1) finishes the match; otherwise it moves to the next index |
| GameScreen.OnMatchEvent | quizrace/frontend/src/components/GameScreen.tsx:169-179 | a score update rebuilds the leaderboard, a settled question shows the result, and other events change nothing |
| GameScreen.SubmitChoiceScoresOnce | quizrace/frontend/src/components/GameScreen.tsx:198-200 | the submitted flag blocks double scoring: a second multiple-choice submit changes nothing |
| GameScreen.SubmitInteractiveScoresOnce | quizrace/frontend/src/components/GameScreen.tsx:221-223 | a second interactive answer changes nothing, whatever its verdict |
| GameScreen.NoScoreAfterTimeout | quizrace/frontend/src/components/GameScreen.tsx:266-272 | after a timeout neither kind of answer changes the state, so the score stays |
| GameScreen.ScoreNeverFalls | quizrace/frontend/src/components/GameScreen.tsx:205-237 | with non-negative points, no answer and no timeout lowers the score |
| GameScreen.NextWalksTheQuestions | quizrace/frontend/src/components/GameScreen.tsx:80 | from question 0, k presses of Next reach question k, and the press on the last question finishes the match |
| GameScreen.OnlyBeginClearsSubmitted | quizrace/frontend/src/components/GameScreen.tsx:135-280 | of all the handlers, only the start of a question clears the submitted flag |
| GameScreen.NoScoringUntilNextBegin | quizrace/frontend/src/components/GameScreen.tsx:135-280 | once an answer is in or the time ran out, any sequence of handler calls without a new question keeps the question submitted and the score unchanged |
| GameScreen.ApplyNeverLowersScore | quizrace/frontend/src/components/GameScreen.tsx:116-280 | with non-negative points, no handler lowers the score, and a load keeps the points non-negative |
| GameScreen.ScoreNeverFallsOverRun | quizrace/frontend/src/components/GameScreen.tsx:116-280 | over any sequence of handler calls whose questions carry non-negative points, the score never falls |
| GameScreen.GameScreenApp.constructor | quizrace/frontend/src/components/GameScreen.tsx:58-77 | the screen parses its match id and starts from the initial state |
| GameScreen.GameScreenApp.LoadQuestions | quizrace/frontend/src/components/GameScreen.tsx:116-120 | the fields after a load are those of the load transition |
| GameScreen.GameScreenApp.BeginQuestion | quizrace/frontend/src/components/GameScreen.tsx:135-142 | the fields after the question reset are those of the reset transition |
| GameScreen.GameScreenApp.TickSecond | quizrace/frontend/src/components/GameScreen.tsx:163 | the fields after a tick are those of the tick transition |
| GameScreen.GameScreenApp.HandleTimeout | quizrace/frontend/src/components/GameScreen.tsx:266-272 | the fields after a timeout are those of the timeout transition |
| GameScreen.GameScreenApp.CheckTimeoutEffect | quizrace/frontend/src/components/GameScreen.tsx:154-158 | the fields after the timeout effect are those of its transition |
| GameScreen.GameScreenApp.HandleSelect | quizrace/frontend/src/components/GameScreen.tsx:192-195 | the fields after a selection are those of the select transition |
| GameScreen.GameScreenApp.HandleMultipleChoiceSubmit | quizrace/frontend/src/components/GameScreen.tsx:197-218 | an answer goes out exactly when the guard passes, and the fields follow the multiple-choice transition |
| GameScreen.GameScreenApp.HandleInteractiveAnswer | quizrace/frontend/src/components/GameScreen.tsx:220-240 | an answer goes out exactly when nothing was submitted, and the fields follow the interactive transition |
| GameScreen.GameScreenApp.HandleDragDropAnswer | quizrace/frontend/src/components/GameScreen.tsx:415-418 | the drag-drop answer is scored with the order-equality verdict |
| GameScreen.GameScreenApp.HandleNext | quizrace/frontend/src/components/GameScreen.tsx:274-280 | the fields after Next are those of the Next transition |
| GameScreen.GameScreenApp.HandleMatchEvent | quizrace/frontend/src/components/GameScreen.tsx:170-176 | the fields after a match event are those of the event transition |
| GameScreen.SubmitTwice | quizrace/frontend/src/components/GameScreen.tsx:197-218 | pressing Submit twice sends nothing the second time and scores at most once |
| DragDrop.Splice | quizrace/frontend/src/components/DragDropQuestion.tsx:35-36 | `splice` keeps the prefix before the start, puts the items there, and keeps the rest after the deleted stretch, with start and count clamped |
| DragDrop.MoveItem | quizrace/frontend/src/components/DragDropQuestion.tsx:33-36 | the order a drop leaves has the same length and still holds the dragged element |
| DragDrop.MovePreservesElements | quizrace/frontend/src/components/DragDropQuestion.tsx:33-37 | a drop keeps the order's length and multiset, so a permutation stays a permutation |
| DragDrop.RemovingTakesOneOut | quizrace/frontend/src/components/DragDropQuestion.tsx:35 | deleting one element removes exactly that element |
| DragDrop.InsertingAddsOne | quizrace/frontend/src/components/DragDropQuestion.tsx:36 | inserting one element adds exactly that element |
| DragDrop.MovePlacesDragged | quizrace/frontend/src/components/DragDropQuestion.tsx:34-36 | after a drop the target index holds the element that was at the dragged index |
| DragDrop.MoveKeepsOthersInOrder | quizrace/frontend/src/components/DragDropQuestion.tsx:35-36 | all other elements keep their relative order |
| DragDrop.MoveToSameIndexIsIdentity | quizrace/frontend/src/components/DragDropQuestion.tsx:35-36 | dropping an element on its own index leaves the order unchanged |
| DragDrop.DragDropQuestion.constructor | quizrace/frontend/src/components/DragDropQuestion.tsx:16-19 | at mount the order is a random permutation of `0..n-1` for the n blocks, and nothing is dragged |
| DragDrop.DragDropQuestion.ReceiveProps | quizrace/frontend/src/components/GameScreen.tsx:411-420 | the next drag-drop question's blocks and answer key reach the same component, whose order and drag stay as they were |
| DragDrop.DragDropQuestion.HandleDragStart | quizrace/frontend/src/components/DragDropQuestion.tsx:21-24 | a drag start is ignored while disabled and otherwise records the index; the order and the props are untouched |
| DragDrop.DragDropQuestion.HandleDrop | quizrace/frontend/src/components/DragDropQuestion.tsx:30-39 | a drop does nothing while disabled or without a drag; otherwise it moves the dragged element to the target and clears the drag; the order keeps its length and stays a permutation |
| DragDrop.DragDropQuestion.HandleSubmit | quizrace/frontend/src/components/DragDropQuestion.tsx:41-44 | the current order is handed on unchanged, correct or not; it is a permutation of `0..k-1` for the k blocks the component was mounted with, which need not be the current question's |
| DragDrop.StaleOrderOnNextQuestion | quizrace/frontend/src/components/GameScreen.tsx:411-420 | after a three-block drag-drop question, a four-block one hands on a three-element order whatever the player drags, and it never equals the answer key |
| Lobby.CreateTarget | quizrace/frontend/src/pages/Lobby.tsx:67 | a created match is entered as the id, a `|`, and the category |
| Lobby.FallbackTarget | quizrace/frontend/src/pages/Lobby.tsx:71 | a failed create enters `match-<stamp>` with the category |
| Lobby.JoinTarget | quizrace/frontend/src/pages/Lobby.tsx:78-85 | a join enters nothing exactly when the id is blank, and otherwise the trimmed id with "all" |
| Lobby.CreateRoundTrip | quizrace/frontend/src/pages/Lobby.tsx:67 | the game screen parses a created target back into the id and the category when neither contains `|` |
| Lobby.FallbackRoundTrip | quizrace/frontend/src/pages/Lobby.tsx:71 | a fallback target parses back into `match-<stamp>` and the category |
| Lobby.JoinRoundTrip | quizrace/frontend/src/pages/Lobby.tsx:84 | a join target parses back into the trimmed id and "all" |
| Lobby.LobbyPage.constructor | quizrace/frontend/src/pages/Lobby.tsx:9-13 | the lobby starts not creating, not connected, without address, with an empty join id and category "all" |
| Lobby.LobbyPage.CheckConnection | quizrace/frontend/src/pages/Lobby.tsx:29-39 | a non-empty address connects the page with that address; a null or empty one changes nothing |
| Lobby.LobbyPage.HandleConnect | quizrace/frontend/src/pages/Lobby.tsx:41-51 | after a successful connect the address is checked; a failed one still connects, with the demo address |
| Lobby.LobbyPage.StartCreate | quizrace/frontend/src/pages/Lobby.tsx:53-59 | create without a connection only connects, as the connect handler does, and enters nothing; with one it sets the creating flag; either way it captures the selected category |
| Lobby.LobbyPage.FinishCreate | quizrace/frontend/src/pages/Lobby.tsx:60-75 | the created match, or the fallback one, is entered with the category captured at the click, and the creating flag is cleared either way |
| Lobby.LobbyPage.SetJoiningId | quizrace/frontend/src/pages/Lobby.tsx:170 | typing sets the join id and nothing else |
| Lobby.LobbyPage.SelectCategory | quizrace/frontend/src/pages/Lobby.tsx:133 | a category click selects it and changes nothing else, also while creating |
| Lobby.SwitchCategoryWhileCreating | quizrace/frontend/src/pages/Lobby.tsx:53-71 | a category picked while the match is being created does not change the category the match is entered with |
| Lobby.LobbyPage.HandleJoin | quizrace/frontend/src/pages/Lobby.tsx:78-85 | a blank id enters nothing; any other enters its join target |
| Common.Get | quizrace/frontend/src/services/lineraClient.ts:96 | reading a key of a score table finds a value exactly when the key is present, and that entry is in the table |
| Common.Put | quizrace/frontend/src/services/lineraClient.ts:100 | `{...r, [k]: v}` maps k to v, keeps every other key's value, adds k to the keys and keeps keys distinct |
| Common.Shuffle | quizrace/question_service/src/index.js:73 | the random shuffle returns a permutation of its input |
| Common.Range | quizrace/frontend/src/components/DragDropQuestion.tsx:17 | `blocks.map((_, i) => i)` is `0..n-1` |
| Common.Split | quizrace/frontend/src/components/GameScreen.tsx:61 | `split` returns at least one piece and no piece contains the separator |
| Common.JoinSplit | quizrace/frontend/src/components/GameScreen.tsx:61 | joining the pieces of a split gives back the string |
| Common.SplitJoin | quizrace/frontend/src/components/GameScreen.tsx:61 | splitting a join of separator-free pieces gives back the pieces |
| Common.Trim | quizrace/frontend/src/pages/Lobby.tsx:79 | `trim` returns the infix left after removing white space at both ends, which neither starts nor ends with white space |
| Common.TrimEmptyIffBlank | quizrace/frontend/src/pages/Lobby.tsx:79 | a string trims to "" exactly when it is all white space |
| Common.TrimIdempotent | quizrace/frontend/src/pages/Lobby.tsx:84 | trimming twice is trimming once |
| Common.TrimKeepsAbsent | quizrace/frontend/src/pages/Lobby.tsx:84 | trimming cannot introduce a character |

## Left out

- MatchContract.MatchApp.ListScores: the order in which the storage iterates the score map is not modelled. The entries come out in some order, each exactly once.
- MatchContract: `Owner` is its string form. `DEFAULT_OWNER` ("") stands for the value an unset host register reads as. The SDK's view machinery (registers, map views, ABI) is plain fields and a map.
- MatchContract.Step: runs the corrected, saturating credit of the Findings row, not the wrapping addition of the code; below the `u32` ceiling the two agree.
- MatchContract.MatchApp.ExecuteOperation: follows `Step`, so it too credits with the corrected, saturating update rather than the wrapping one.
- MatchContract.Credit: this is the corrected update, which saturates at `u32::MAX`; see Findings. The wrapping addition the code performs is `CreditAsWritten`.
- QuestionService: HTTP routing, CORS, the health check and reading the question file are not modelled. Salts and commit ids (`crypto.randomBytes`) are inputs, and SHA-256 is an uninterpreted function parameter.
- QuestionService.ListQuestions: `Math.random` sorting is any permutation chosen by the `swaps` input. The model does not capture the bias of that sort.
- LineraClient: the demo interval, which injects random players every 5 seconds, is not modelled. Nor is its cleanup on the last unsubscribe; these are timer scheduling. The 300 ms and 1000 ms delays of `submitAnswer` are split into two calls, `SubmitAnswer` and `SettleSubmittedScore`.
- LineraClient: callbacks are identified by number. A callback that subscribes or unsubscribes while it is being delivered an event is not modelled. Delivery iterates a snapshot of the set.
- LineraClient: `Object` key order for integer-like keys, which JavaScript lists first, is not modelled. Records keep plain insertion order.
- LineraClient: `getMatchState` returns a demo constant and `createMatch` a generated `match-<clock>-<random>` id; neither is part of this model. The lobby takes the created id as an input.
- GameScreen: fetching questions, commit and reveal requests, and the answer payload sent to the chain are I/O and are not modelled. The handlers report only whether an answer went out. The fallback refetch for an empty category is folded into the `data` the load receives, and a non-array reply counts as empty.
- GameScreen: `setInterval` is not modelled. Each tick is an explicit call.
- GameScreen: JSX rendering and result banners are not modelled.
- GameScreen: the physics-simulation and coding questions are not part of this model. Their verdicts rest on floating-point formulas and on evaluating user code; they reach the screen as the `correct` flag of `SubmitInteractive`.
- GameScreen.SortByScore: the sort is modelled as a stable insertion sort. Only sortedness and the permutation are stated, not the stability of equal scores.
- GameScreen.GameScreenApp.HandleMultipleChoiceSubmit: requires a current question. The submit button is only rendered with one, and without one the handler would throw.
- DragDrop: the rendered indices are in range of the order, so drag start and drop take in-range indices. Rendering a block index past the current blocks (`blocks[blockIndex]` undefined) is not modelled.
- GameScreen.Apply: a submit handler without a current question changes nothing there. The source only renders those handlers with a current question.
- Lobby: the category list, the alert dialogs and `console` output are not modelled. `Date.now().toString(36)` is the `stamp` input. The `catch` branch of `checkConnection` is unreachable, because the client's `getCurrentAddress` never throws; it is left out.

## Findings

| source | as written | input that shows it | evidently intended | confidence | as-written member | corrected member |
|---|---|---|---|---|---|---|
| quizrace/contracts/match_contract/src/lib.rs:97-98 | `current_score + 10` on a `u32` wraps around in a release build, and panics in a debug build | a player at 4294967286 points submits once more: the score becomes 0 | scores never decrease; the credit stops at `u32::MAX` (saturating add) | not executed | MatchContract.CreditAsWrittenLowersScore | MatchContract.Credit |
