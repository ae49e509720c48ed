# Mental-health quiz core, modelled in Dafny

This project models the logic of a small Java quiz application. The application is a learning module of picture pages, a quiz of multiple-choice and true/false questions, points and badges awarded for correct answers, a leaderboard of users, and a text file of past scores. The model follows the Java classes one by one:

- `Questions`: `Question` and its two subclasses become one immutable datatype with a variant per subclass. `Evaluate` is the overridden `evaluate`.
- `Badges`: `Badge` is an immutable datatype. It comes with the four-tier catalogue the engine installs and the front-to-back scan that picks a badge.
- `Users`: `User` is a class with a fixed name, a mutable point total and an optional badge.
- `Leaderboard`: the leaderboard order, defined on snapshots of the users' totals. It is a stable sort, highest total first.
- `Gamification`: `GamificationEngine` is a class holding the user list and the catalogue. It awards points, assigns badges and re-sorts the leaderboard.
- `Quiz`: `QuizModule` is a class. It adds questions, shuffles them, scores an answer list and turns the score into a percentage and a message.
- `DataStore`: `DataManager` is a class over the text of its score file and the scores it last read. It saves, loads, appends and deletes, and reloads to give the latest score, the average and a message.
- `Learning`: `LearningModule` is a class. It holds the page counter, the flags `displayPage` sets on the buttons, and the progress value.
- `JavaText` and `JavaLines`: the parts of the Java library these classes rely on, on ASCII text. `JavaText` has `equalsIgnoreCase`, `Boolean.parseBoolean`, `trim`, `Integer.parseInt` and `Integer.toString`. `JavaLines` has the line splitting of `BufferedReader.readLine`.
- `Arith` and `Wrappers`: shared helpers. `Wrappers` holds `Option` and `Result`.

Java `null` is `None`. A Java exception is a `Failure` carrying the exception's message. Each file operation takes `ioOk`, whether the file can be opened. Randomness is a parameter `draw` standing for the generator's answers. The file separator is a parameter.

`calculateScore` divides the current score by ten times the number of questions. A quiz that was never generated therefore divides by zero in double arithmetic. The code then gives Infinity, NaN or -Infinity. It has no guard for zero, and the model follows the code (`Quiz.JavaDouble`).

## Model

| member | source | states |
|---|---|---|
| JavaText.EqualsIgnoreCase | src/MultipleChoiceQuestion.java:19 | strings equal ignoring case have the same length, and every string equals itself ignoring case |
| JavaText.ParseBoolean | src/TrueFalseQuestion.java:11 | true exactly for a non-null string that upper-cases to "TRUE" |
| JavaText.Trim | src/DataManager.java:99 | the result is no longer than the line, starts and ends with a non-blank, and is empty for an all-blank line |
| JavaText.ParseInt | src/DataManager.java:99 | a parsed value lies in the 32-bit range and comes from digits with at most one leading sign; a run of digits within the range parses to its value |
| JavaText.EqualsIgnoreCaseIffUpper | src/MultipleChoiceQuestion.java:19 | two strings are equal ignoring case exactly when they upper-case to the same string |
| JavaText.EqualsIgnoreCaseIsEquivalence | src/MultipleChoiceQuestion.java:19 | equality ignoring case is reflexive, symmetric and transitive |
| JavaText.TrimStart | src/DataManager.java:99 | the result is a suffix of the line; every removed character is at most a space and the first kept one is not |
| JavaText.TrimEnd | src/DataManager.java:99 | the result is a prefix of the line; every removed character is at most a space and the last kept one is not |
| JavaText.TrimKeeps | src/DataManager.java:99 | trimming leaves a line alone when it neither starts nor ends with a blank |
| JavaText.DecimalString | src/DataManager.java:121 | the text written for a non-negative score is a non-empty run of digits with no leading zero |
| JavaText.ParseDecimalString | src/DataManager.java:99 | parsing the trimmed text written for any non-negative int gives back that int |
| JavaLines.Lines | src/DataManager.java:97 | no lines exactly for empty text, and never more lines than characters |
| JavaLines.LineEnd | src/DataManager.java:97 | a line ends within the text, and when it ends before the end of the text it ends at a newline |
| JavaLines.LineEndIsFirst | src/DataManager.java:97 | no newline comes before the end of the first line |
| JavaLines.LinesHaveNoNewline | src/DataManager.java:97 | no line readLine returns contains a newline |
| JavaLines.LinesOfUnlines | src/DataManager.java:97 | reading back lines that were each written followed by a newline gives exactly those lines |
| JavaLines.UnlinesOfLines | src/DataManager.java:78-80 | re-joining the lines read, each followed by a newline, gives the text back, plus a newline when it did not end with one |
| JavaLines.AppendLine | src/DataManager.java:120-122 | writing a line and a newline after newline-terminated text adds exactly that line to what is read back |
| Questions.Question.Evaluate | src/MultipleChoiceQuestion.java:18-20 | a multiple-choice answer is accepted exactly when it is non-null and upper-cases like the correct option; a true/false answer exactly when whether it upper-cases to "TRUE" agrees with the stored value (src/TrueFalseQuestion.java:10-12) |
| Questions.Question.GetOptions | src/MultipleChoiceQuestion.java:13-15 | returns the option list the question was built with, the other fields unchanged |
| Questions.MultipleChoiceAcceptsCorrectOption | src/MultipleChoiceQuestion.java:18-20 | the correct option, written in any case, is accepted |
| Questions.MultipleChoiceIff | src/MultipleChoiceQuestion.java:18-20 | an answer is accepted exactly when it is non-null and matches the correct option ignoring case; the options list never matters |
| Questions.TrueInAnyCase | src/TrueFalseQuestion.java:11 | "true", "True" and "TRUE" all parse as true |
| Questions.TrueFalseAccepts | src/TrueFalseQuestion.java:10-12 | a false question accepts every answer that does not parse as true, null, "" and "no" among them; a true question accepts only case variants of "true" |
| Questions.TrueFalseExactlyOne | src/TrueFalseQuestion.java:10-12 | of "true" and "false", exactly one is accepted |
| Badges.Badge.GetBadgeInfo | src/Badge.java:35-37 | the name, then " - Requires: ", then the requirement text, each in its own slice |
| Badges.Badge.GetName | src/Badge.java:58-60 | always null: the field is never assigned |
| Badges.Badge.CheckRequirement | src/Badge.java:31-33 | met exactly from the threshold up; its monotonicity is CheckRequirementMonotone |
| Badges.CheckRequirementMonotone | src/Badge.java:31-33 | a threshold met with some points is met with any more points |
| Badges.Catalogue | src/GamificationEngine.java:28-35 | four badges with strictly descending thresholds, the last one 0 |
| Badges.FirstMatch | src/GamificationEngine.java:48-55 | the scan stops at the first badge whose requirement the points meet, with every earlier badge unmet; otherwise at the end |
| Badges.FirstMatchIsHighest | src/GamificationEngine.java:48-55 | in a descending catalogue the badge found has the highest threshold among the badges met |
| Badges.FirstMatchMonotone | src/GamificationEngine.java:48-55 | in any badge list, more points never stop the scan at a later badge |
| Badges.CatalogueCoversNonNegative | src/GamificationEngine.java:31-34 | a total matches some catalogue badge exactly when it is non-negative |
| Badges.CatalogueExamples | src/GamificationEngine.java:31-34 | 16 points give Gold, 6 give Bronze, 0 give Keep Learning |
| Users.User.constructor | src/User.java:19-22 | a new user has the name, 0 points and no badge |
| Users.User.WithPoints | src/User.java:25-28 | a new user has the name, the given points and no badge |
| Users.User.AwardPoints | src/User.java:29-31 | the total grows by the amount and the badge is unchanged |
| Users.User.SetBadge | src/User.java:37-39 | the badge is replaced and the total is unchanged |
| Users.User.GetBadgeName | src/User.java:45-47 | "None" without a badge, otherwise the badge's name |
| Users.User.GetBadgeIconPath | src/User.java:49-51 | "" without a badge, otherwise the badge's icon path |
| Leaderboard.InsertMultiset | src/GamificationEngine.java:72 | inserting an entry adds exactly that entry, as a multiset |
| Leaderboard.SortPermutes | src/GamificationEngine.java:72 | the sort is a permutation of its input |
| Leaderboard.SortIsSorted | src/GamificationEngine.java:72 | the sorted entries have non-increasing points |
| Leaderboard.SortIsStable | src/GamificationEngine.java:72 | the entries with any given total keep their relative order |
| Leaderboard.SortedUnique | src/GamificationEngine.java:72 | two descending orders that keep every total's entries in the same order are equal, so every stable descending sort gives the same result |
| Leaderboard.SortPermutesUsers | src/GamificationEngine.java:72 | the sorted user list is a permutation of the old one |
| Leaderboard.SortKeepsSum | src/GamificationEngine.java:72 | sorting keeps the points total |
| Leaderboard.SumPointsAppend | src/GamificationEngine.java:64-66 | the points total of two lists joined is the sum of their totals |
| Leaderboard.SumPointsNonNegative | src/GamificationEngine.java:64-66 | totals none of which is negative sum to a non-negative total |
| Leaderboard.SortExample | src/GamificationEngine.java:72 | totals 20, 20, 5 keep their order, the tie included |
| Gamification.Standings | src/GamificationEngine.java:65 | each user is paired with its current total, in list order |
| Gamification.Reordered | src/GamificationEngine.java:71-73 | the users taken in sorted order have the sorted standings, are the same users, have non-increasing totals with ties in their old order, and the same points total |
| Gamification.AssignedFromCatalogue | src/GamificationEngine.java:48-55 | with the catalogue, a non-negative total gets the highest badge it reaches; a negative total keeps the old badge |
| Gamification.AssignedMonotone | src/GamificationEngine.java:48-55 | a higher non-negative total never yields a lower badge |
| Gamification.GamificationEngine.constructor | src/GamificationEngine.java:28-35 | no users, and the four-tier catalogue built with the separator |
| Gamification.GamificationEngine.GetTotalPoints | src/GamificationEngine.java:63-66 | 0 with no users, and never negative when no user's total is negative |
| Gamification.GamificationEngine.AddUser | src/GamificationEngine.java:37-39 | the user is appended and the points total grows by its points |
| Gamification.GamificationEngine.AssignBadge | src/GamificationEngine.java:48-55 | the user gets the first catalogue badge its total meets, or keeps its badge when there is none; its points are unchanged |
| Gamification.GamificationEngine.AssignBadges | src/GamificationEngine.java:57-61 | every registered user gets the badge the scan picks for it |
| Gamification.GamificationEngine.UpdateLeaderboard | src/GamificationEngine.java:71-73 | the users are permuted into non-increasing points; ties keep their order; the points total is unchanged |
| Gamification.GamificationEngine.AwardPointsToUser | src/GamificationEngine.java:41-46 | the user gains twice the correct answers, gets the scan's badge, and the leaderboard is re-sorted |
| Gamification.GamificationEngine.AwardPoints | src/GamificationEngine.java:87-92 | the last user gains the points and keeps its badge; with no users nothing changes |
| Gamification.GamificationEngine.GetBadge | src/GamificationEngine.java:95-101 | the last user's badge, or null with no users |
| Quiz.Score | src/QuizModule.java:36-45 | the points of the questions whose answer is accepted; its bounds and extremes are ScoreBounds, ScoreAllCorrect and ScoreNoneCorrect |
| Quiz.ScoreBounds | src/QuizModule.java:36-45 | with non-negative point values the score lies between 0 and the points of the questions answered |
| Quiz.ScoreAllCorrect | src/QuizModule.java:36-45 | all answers accepted: the score is the full points of the questions answered |
| Quiz.ScoreNoneCorrect | src/QuizModule.java:36-45 | no answer accepted: the score is 0 |
| Quiz.Percentage | src/QuizModule.java:55-57 | within 0 to 100 for a score up to ten per question; at least 80 exactly from 8 points per question, at least 50 exactly from 5 |
| Quiz.TenPointQuizPercentage | src/QuizModule.java:55-57 | with ten-point questions all answered, the percentage lies between 0 and 100 |
| Quiz.TenPointSum | src/QuizModule.java:55-57 | ten-point questions are worth ten points per question |
| Quiz.QuizModule.constructor | src/QuizModule.java:12-16 | an empty quiz with the time limit and no engine |
| Quiz.QuizModule.WithEngine | src/QuizModule.java:19-24 | an empty quiz bound to the engine, with time limit 0 |
| Quiz.QuizModule.AddQuestion | src/QuizModule.java:26-28 | the question is appended and nothing else changes |
| Quiz.QuizModule.ShuffleQuestions | src/QuizModule.java:65-67 | the questions are permuted |
| Quiz.QuizModule.GenerateQuiz | src/QuizModule.java:30-34 | the questions are permuted and their number is recorded |
| Quiz.QuizModule.EvaluateAnswers | src/QuizModule.java:36-45 | the returned and stored score is the points of the questions whose answer is accepted; the questions are unchanged |
| Quiz.QuizModule.CalculateScore | src/QuizModule.java:55-57 | the percentage; with no questions counted, Infinity for a positive score and NaN for 0 |
| Quiz.QuizModule.GetMotivationalMessage | src/QuizModule.java:59-63 | Excellent from 8 points per question, Good effort from 5, otherwise Don't give up; with no questions, Excellent exactly for a positive score |
| Quiz.QuizModule.ValidateAnswer | src/QuizModule.java:75-77 | accepted exactly when the question accepts the answer |
| Quiz.QuizModule.GetQuestionType | src/QuizModule.java:80-84 | "MCQ" exactly for a multiple-choice question, "True/False" exactly for a true/false one, "Unknown" exactly for a null question |
| Quiz.QuizModule.AwardScoreToUser | src/QuizModule.java:49-53 | with an engine the user gains twice the correct answers and the scan's badge, and the engine's users are re-sorted into the stable leaderboard order as a permutation; without one nothing changes |
| DataStore.ParseScores | src/DataManager.java:97-102 | the scores of the lines that parse, in file order; never more scores than lines |
| DataStore.MessageFor | src/DataManager.java:154-161 | the message for an average; its bands are MessageBands |
| DataStore.AverageAtLeast | src/DataManager.java:148 | the average reaches a whole threshold exactly when the sum reaches it times the count |
| DataStore.MessageBands | src/DataManager.java:154-161 | each message names one band of averages: from 80, 60, 40, 20, and below 20 |
| DataStore.MessageBySum | src/DataManager.java:141-161 | the message as integer bands on the sum and count; with no scores, "Don't give up!" |
| DataStore.ReloadAfterAppend | src/DataManager.java:115-126 | after appending a valid score to newline-terminated text, a reload reads the old scores plus that score |
| DataStore.AppendJoinsUnterminatedLine | src/DataManager.java:63-69 | after saving text with no final newline, an appended score joins the last line: "5" then 7 reads back as 57 |
| DataStore.SumOf | src/DataManager.java:144-147 | the loop's sum is the sum of the scores |
| DataStore.DataManager.constructor | src/DataManager.java:30-34 | no scores; an existing file keeps its text, a missing one is created empty |
| DataStore.DataManager.WithScores | src/DataManager.java:39-43 | the initial scores are held in memory only; the file text is as in the other constructor |
| DataStore.DataManager.SaveData | src/DataManager.java:63-69 | the file becomes the data; on failure nothing changes and "Failed to save data." is reported |
| DataStore.DataManager.LoadData | src/DataManager.java:75-85 | the file text, with a newline added when it did not end with one; "Failed to load data." on failure |
| DataStore.DataManager.GetUserScores | src/DataManager.java:93-108 | the scores become the lines that parse as ints, in file order; on failure they stay cleared and the error is reported |
| DataStore.DataManager.AppendScore | src/DataManager.java:115-126 | an out-of-range score is refused first; otherwise its line goes to the end of the file and it joins the scores |
| DataStore.DataManager.GetLatestScore | src/DataManager.java:132-135 | after a reload, the last score read, or 0 with none |
| DataStore.DataManager.GetAverageScore | src/DataManager.java:141-149 | after a reload, the average of the scores read, or 0 with none |
| DataStore.DataManager.GetMotivationalMessage | src/DataManager.java:154-161 | after a reload, the message for the average |
| DataStore.DataManager.DeleteData | src/DataManager.java:167-174 | the file is emptied and the scores cleared; on failure nothing changes |
| Learning.NextPage | src/LearningModule.java:128-133 | one page on exactly when not on the last page, otherwise the same page |
| Learning.PreviousPage | src/LearningModule.java:135-140 | one page back exactly when past the first page, otherwise the same page |
| Learning.MovesStayInRange | src/LearningModule.java:128-140 | both moves keep the page inside the page list |
| Learning.MovesUndoEachOther | src/LearningModule.java:128-140 | previous undoes next away from the last page, and next undoes previous away from the first |
| Learning.NextTimesFromStart | src/LearningModule.java:128-133 | k presses of next from the first page reach page min(k, last) |
| Learning.ProgressFor | src/LearningModule.java:120-126 | the page index over the last index, 0 for a single page; its bounds are ProgressBounds |
| Learning.ProgressBounds | src/LearningModule.java:120-126 | progress lies in 0 to 1; it is 1 exactly on the last of several pages, and 0 on the first page or a single page |
| Learning.ProgressMonotone | src/LearningModule.java:120-126 | a later page shows strictly more progress |
| Learning.LearningModule.constructor | src/LearningModule.java:37-54 | the pages are counted and the first is shown; with no pages, onFinish runs once |
| Learning.LearningModule.DisplayPage | src/LearningModule.java:100-118 | with no pages only onFinish runs; otherwise the page, the progress, the disabled "previous" button on the first page, and "Start Quiz" instead of "next" on the last page |
| Learning.LearningModule.UpdateProgress | src/LearningModule.java:120-126 | progress is set from the page and nothing else changes |
| Learning.LearningModule.ShowNextPage | src/LearningModule.java:128-133 | moves to the next page and redisplays; on the last page nothing changes |
| Learning.LearningModule.ShowPreviousPage | src/LearningModule.java:135-140 | moves to the previous page and redisplays; on the first page nothing changes |
| Learning.LearningModule.Reset | src/LearningModule.java:142-145 | back to the first page; with no pages onFinish runs again and the shown page, the progress and the button flags stay as they were |
| Learning.LearningModule.StartQuiz | src/LearningModule.java:83-87 | onFinish runs when there is one; nothing else changes |

## Left out

- Console output is not modelled: `processQuestion`, `displayBadge`, `showLeaderboard` and the message `generateQuiz` prints.
- The GUIs, the widgets (`getPane` among them) and the image loading are not modelled. The learning module keeps only the state `displayPage` gives its widgets.
- `loadPages` is not modelled. The learning module is built from the page paths that its directory listing, `.png` filter and name sort would give, so I/O stays out.
- Plain getters are the fields themselves: `getQuestion`, `getPoints`, the `Badge` getters, `User.getName`, `getBadge` and `getTotalPoints`, and `getUsers`.
- The `RewardSystem`, `QuestionHandler` and `DatabaseHandler` interfaces add no behaviour. The copies under `ProjectJava/` are earlier versions and are not part of this model.
- The file system is not modelled. A file is its text. Whether it can be opened is the `ioOk` parameter, and a failure is taken to happen before anything is written. The exception's `cause` is dropped.
- `getUserScores` returns the manager's own `scores` list, so a caller that changes the returned list changes the manager's scores. `DataStore.DataManager.GetUserScores` returns a copy, so that aliasing is not modelled.
- The `DataManager` constructors do not model a failure to create the file ("Could not create data file").
- `Collections.shuffle`'s random source is the parameter `draw`.
- Quiz.QuizModule.ShuffleQuestions: proves that the result is a permutation, not the distribution of the shuffle.
- Java's 32-bit wrap-around is not modelled. This covers `awardPoints`, `correctAnswers * 2`, the point sums, `totalQuestions * 10` and the sum in `getAverageScore`.
- Users.User.AwardPoints: adds without 32-bit wrap-around.
- Gamification.GamificationEngine.UpdateLeaderboard: sorts by the true difference of totals. Java's comparator subtracts two ints, which can overflow for totals far apart.
- Doubles are modelled as reals: `calculateScore`, `getAverageScore` and the learning progress. Rounding is not modelled. The NaN and infinity cases of `calculateScore` are modelled.
- Quiz.QuizModule.EvaluateAnswers: requires at most one answer per question. With more answers, Java throws `IndexOutOfBoundsException` partway, leaving a partial `currentScore`.
- Text handling is ASCII only. Case folding covers only `a`-`z`; `parseInt` accepts only the digits `0`-`9`, not other Unicode digits; `readLine` ends lines only at `\n`, not at `\r` or `\r\n`.
