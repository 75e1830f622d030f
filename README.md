# Year 2 learning app: curriculum, progress and mini-games

This project is a Dafny model of the logic in a React learning application for year 2 pupils.

- **Curriculum.** The curriculum is a table of categories, topics and challenges. Its ids are kebab-case slugs. Each topic gets four numbered challenges.
- **Progress.** The pupil's progress is a JSON record in local storage. It lists the completed challenges of each topic. A challenge page marks its challenge complete, and the curriculum page uses the record to decide which challenges are locked. Both the current lock rules and the older page's rules are modelled. A challenge is loaded from a path built out of the topic id, and a failed load counts down before it redirects.
- **Games.** The games are:
  - the two year-2 challenge sets ("numbers and counting", "counting forwards and backwards");
  - the arithmetic and number-pattern quizzes, number bonds, fraction shading and the shape quiz;
  - the English games: missing letter, synonym memory, opposites, word sorting, sentence building and sight-word bubbles;
  - the geography games: the world map quiz, flag finder and city spotlight.

**How the model is built**
- Pure helpers become functions, with lemmas about them.
- A component's state becomes a class. Its handlers and timed effects become methods whose contracts state the whole new state.
- Randomness is a parameter:
  - a draw of `Math.random()` is a real in [0, 1), called `Unit`;
  - a shuffle takes a function from positions to draws;
  - a loop that keeps drawing until it succeeds takes a finite sequence of draws and reports whether it finished.
- Browser storage, the network, timers and rendering are left out, as listed below.

**Shared modules**
- `Js` models the JavaScript built-ins the code relies on: lower-casing, `trim`, `split`/`join`, `Number`, `parseInt`, `toString`, the digit filter and the splice-based reorder.
- `Drill` holds ordering and distinctness facts.
- `Shuffle` holds the Fisher–Yates shuffle and the shuffle-and-slice draws.
- `Memory` holds the paired-card model that the two memory games share.
- `Distractors` holds the "draw near the answer until three wrong answers are found" loop.

## Model

| member | source | states |
|---|---|---|
| KebabCase.ToKebabCase | src/utils/toKebabCase.js:2-8 | every character of an id is a lower-case ASCII letter, a digit or '-' |
| KebabCase.KebabIgnoresEnds | src/utils/toKebabCase.js:5-7 | punctuation and white space at either end do not change the id, including white space that removing punctuation exposes |
| KebabCase.KebabOfPunctuation | src/utils/toKebabCase.js:5-6 | a string of punctuation and white space only has the empty id |
| KebabCase.DashRunsInternal | src/utils/toKebabCase.js:7 | a run of white space between two words becomes exactly one '-', and hyphens beside it are kept |
| KebabCase.KebabLowerCases | src/utils/toKebabCase.js:4-5 | upper-case ASCII letters are lower-cased, not removed |
| KebabCase.KebabIdempotent | src/utils/toKebabCase.js:4-7 | applying the slug twice gives the same id as applying it once |
| KebabCase.ScanIsKebab | src/utils/toKebabCase.js:2-8 | a single left-to-right scan computes the same id as the chain of lower-case, remove, trim and replace |
| Curriculum.DeriveTopic | src/data/year2MathCurriculum.js:88-96 | a derived topic has a well-formed id, keeps its name and gets the four standard challenges |
| Curriculum.DeriveCategory | src/data/year2MathCurriculum.js:85-97 | a derived category has a well-formed id, keeps its title and derives each of its topics in order |
| Curriculum.ChallengeIdsArePositions | src/data/year2MathCurriculum.js:91-96 | every derived topic has four challenges, and challenge k has id k + 1 |
| CurriculumSlugs.DeriveKeepsMatchingIds | src/data/year2MathCurriculum.js:85-90 | when every hand-written topic id equals the slug of its name, the derived tree carries the hand-written ids |
| CurriculumSlugs.DerivedTopicIdsDistinct | src/data/year2MathCurriculum.js:88-90 | distinct hand-written ids that match the slugs give distinct derived topic ids |
| CurriculumSlugs.CategoryIdsDistinct | src/data/year2MathCurriculum.js:3-83 | the eight slugs of the category titles are pairwise distinct |
| CurriculumSlugs.DerivedCategoryIds | src/data/year2MathCurriculum.js:85-98 | each category of the derived curriculum carries the slug of its title, in table order: "number---number-and-place-value" through "statistics" |
| CurriculumSlugs.TableShape | src/data/year2MathCurriculum.js:3-83 | the table has eight categories holding 6, 4, 7, 3, 7, 3, 4 and 5 topics |
| CurriculumSlugs.DerivedCurriculumIds | src/data/year2MathCurriculum.js:85-98 | the derived `year2MathCurriculum` has eight categories whose ids are those slugs and pairwise different, holding 6, 4, 7, 3, 7, 3, 4 and 5 topics |
| CurriculumSlugs.TopicIdsOfNumberAndPlaceValue | src/data/year2MathCurriculum.js:4-14 | every topic id of the category is the slug of its name |
| CurriculumSlugs.TopicIdsOfAdditionAndSubtraction | src/data/year2MathCurriculum.js:15-23 | every topic id of the category is the slug of its name |
| CurriculumSlugs.TopicIdsOfMultiplicationAndDivision | src/data/year2MathCurriculum.js:24-35 | every topic id of the category is the slug of its name |
| CurriculumSlugs.TopicIdsOfFractions | src/data/year2MathCurriculum.js:36-43 | every topic id of the category is the slug of its name |
| CurriculumSlugs.TopicIdsOfMeasurement | src/data/year2MathCurriculum.js:44-55 | every topic id of the category is the slug of its name |
| CurriculumSlugs.TopicIdsOfPropertiesOfShapes | src/data/year2MathCurriculum.js:56-63 | every topic id of the category is the slug of its name |
| CurriculumSlugs.TopicIdsOfPositionAndDirection | src/data/year2MathCurriculum.js:64-72 | every topic id of the category is the slug of its name |
| CurriculumSlugs.TopicIdsOfStatistics | src/data/year2MathCurriculum.js:73-82 | every topic id of the category is the slug of its name |
| CurriculumSlugs.TitleSlugOfNumberAndPlaceValue | src/data/year2MathCurriculum.js:5 | "Number - Number and Place Value" gives "number---number-and-place-value": the hyphen and both spaces around it survive as three dashes |
| CurriculumSlugs.TitleSlugOfPropertiesOfShapes | src/data/year2MathCurriculum.js:57 | the en dash is removed, giving "geometry-properties-of-shapes" |
| Progress.Complete | src/pages/curriculum/ProblemView.jsx:21-40 | an id already listed leaves the record as it was; a new id is appended to the topic's list; other categories, other topics and unknown fields are kept |
| Progress.CompleteIdempotent | src/pages/curriculum/ProblemView.jsx:25-26 | completing the same challenge twice has the effect of completing it once |
| Progress.CompleteLists | src/pages/curriculum/ProblemView.jsx:25-26 | after completion the challenge is in its topic's list |
| Progress.CompleteKeepsNoDuplicates | src/pages/curriculum/ProblemView.jsx:25-26 | a completed list without repeats stays without repeats |
| Progress.ParseForRead | src/pages/curriculum/ProblemView.jsx:13-15 | reading fails exactly for a stored `null` or unparsable text; a stored record is read back as it is |
| Progress.CompletedFlag | src/pages/curriculum/ProblemView.jsx:13-16 | the page's "completed" flag fails exactly when reading fails, is false when nothing is stored, and otherwise tells whether the id is listed |
| Progress.HandleComplete | src/pages/curriculum/ProblemView.jsx:19-44 | marking complete fails exactly when reading fails; with nothing stored it writes a record listing only this id; otherwise it writes the completed record |
| Progress.FlagAfterComplete | src/pages/curriculum/ProblemView.jsx:12-16 | after a successful "mark complete", the page reads its challenge as completed |
| Progress.Initial | src/pages/curriculum/CurriculumPage.jsx:11-17 | the initial `progress` is `null` exactly when storage holds `null`; a stored record is taken as it is, and missing or unparsable storage gives the empty record |
| Progress.ProgressPage.constructor | src/pages/curriculum/CurriculumPage.jsx:10-17 | the page starts with the initialiser's value and is not yet hydrated, so its first render throws exactly when storage holds `null` |
| Progress.ProgressPage.Hydrate | src/pages/curriculum/CurriculumPage.jsx:20-28 | hydration loads the stored record (the empty one for `null`, missing or unparsable storage) and sets the flag, after which rendering no longer throws |
| Progress.ProgressPage.Save | src/pages/curriculum/CurriculumPage.jsx:31-36 | the value is written back only once hydrated; before that storage is untouched |
| Progress.SaveBeforeHydration | src/pages/curriculum/CurriculumPage.jsx:31-36 | the save effect that runs before hydration leaves storage exactly as it was |
| Progress.VisitPage | src/pages/curriculum/CurriculumPage.jsx:10-46 | a visit throws exactly when storage holds `null` (the first render reads `progress[categoryId]` before any effect runs); otherwise a stored record is kept as it is and missing or unparsable storage becomes the empty record |
| CurriculumLocks.CompleteByCount | src/pages/curriculum/CurriculumPage.jsx:40-46 | a topic whose list is as long as its challenges counts as complete |
| CurriculumLocks.CompletedNeverLocked | src/pages/curriculum/CurriculumPage.jsx:131-147 | in an unlocked topic, a completed challenge is never locked |
| CurriculumLocks.EmptyRecordUnlocksOne | src/pages/curriculum/CurriculumPage.jsx:66-147 | for a first-time user exactly the first challenge of the first topic of the first category is open |
| CurriculumLocks.PrefixUnlocksNext | src/pages/curriculum/CurriculumPage.jsx:131-147 | in an open topic whose first m challenges are completed, exactly challenges 0..m are open |
| CurriculumLocks.CompleteNextExtendsPrefix | src/pages/curriculum/CurriculumPage.jsx:137-146 | completing the next open challenge extends the completed prefix by one |
| LegacyLocks.LegacyEmptyRecordUnlocksOne | src/pages/curriculum/Curriculum.jsx:108-114 | the older page also opens only the very first challenge for a first-time user, agreeing with the current page |
| LegacyLocks.LegacyPredecessorRule | src/pages/curriculum/Curriculum.jsx:108-114 | in the older page a later challenge is open exactly when its predecessor is completed |
| LegacyLocks.LegacyIgnoresCategoryLock | src/pages/curriculum/Curriculum.jsx:81-88 | the older page opens the first challenge of a locked category, which the current page keeps locked |
| LegacyLocks.LegacyLocksCompleted | src/pages/curriculum/Curriculum.jsx:108-114 | a completed challenge whose predecessor is not completed is locked in the older page, and open in the current one when its topic is open |
| LegacyLocks.PrefixAgreement | src/pages/curriculum/Curriculum.jsx:108-114 | in an open topic with a completed prefix, the two pages open exactly the same challenges |
| ChallengeLoader.CapWord | src/pages/curriculum/Challenge.jsx:52 | capitalising a word keeps its length and letters up to case and upper-cases a leading lower-case letter |
| ChallengeLoader.CapitalizeTopicId | src/pages/curriculum/Challenge.jsx:49-54 | the module name has no '-', and has the id's other letters in order up to case |
| ChallengeLoader.JoinWithout | src/pages/curriculum/Challenge.jsx:50-53 | removing the dashes of dash-joined words runs the words together |
| ChallengeLoader.CapitalizeWords | src/pages/curriculum/Challenge.jsx:49-54 | the module name of a dash-joined id is its words, each capitalised, run together |
| ChallengeLoader.CapitalizeThreeWords | src/pages/curriculum/Challenge.jsx:49-54 | "a-b-c" gives the three words capitalised and joined |
| ChallengeLoader.CapWordOfLower | src/pages/curriculum/Challenge.jsx:52 | a word starting with a lower-case letter gets that letter upper-cased and the rest unchanged |
| ChallengeLoader.PathSegments | src/pages/curriculum/Challenge.jsx:29-31 | the import path splits into exactly the expected seven segments, with the module name last |
| ChallengeLoader.ErrorCountdown.constructor | src/pages/curriculum/Challenge.jsx:19-21 | the countdown starts at 3, with no failure and no redirect |
| ChallengeLoader.ErrorCountdown.Fail | src/pages/curriculum/Challenge.jsx:36-39 | a failed load sets the error and changes nothing else |
| ChallengeLoader.ErrorCountdown.Tick | src/pages/curriculum/Challenge.jsx:57-65 | without an error nothing happens; with one, a positive countdown goes down by one and a countdown at zero redirects |
| ChallengeLoader.RedirectAfterFailure | src/pages/curriculum/Challenge.jsx:57-65 | after a failure the page shows 3, 2, 1, 0 and redirects on the fourth tick |
| MapNames.Decompose | src/components/MapGame.jsx:7 | a character decomposes into at most two, the second a combining mark after an ASCII letter of the same case; characters outside Latin-1 are kept |
| MapNames.Nfd | src/components/MapGame.jsx:7 | decomposition at most doubles the length and leaves only decomposed characters |
| MapNames.StripMarks | src/components/MapGame.jsx:8 | no combining mark survives |
| MapNames.UnifyApostrophes | src/components/MapGame.jsx:9 | every character of the apostrophe class becomes a straight apostrophe and every other character is kept |
| MapNames.DropPunctuation | src/components/MapGame.jsx:10 | no white space or listed punctuation survives, and only characters of the input do |
| MapNames.Normalize | src/components/MapGame.jsx:5-12 | the key has no dropped character, no upper-case letter and no mark |
| MapNames.NormalizeName | src/components/MapGame.jsx:5-12 | a missing name stays missing, a present one is normalised |
| MapNames.NormalizeByCharacter | src/components/MapGame.jsx:5-12 | the key of a string is the keys of its characters, concatenated |
| MapNames.AccentsIgnored | src/components/MapGame.jsx:7-8 | an accented letter and its base letter give the same key |
| MapNames.PunctuationIgnored | src/components/MapGame.jsx:10 | removing white space or listed punctuation does not change the key |
| MapNames.CurlyApostropheKept | src/components/MapGame.jsx:9-10 | the right single quotation mark is kept, so it does not match a straight apostrophe |
| MapNames.CaseIgnored | src/components/MapGame.jsx:11 | lower-casing the input first does not change the key |
| MapNames.NormalizeIdempotent | src/components/MapGame.jsx:5-12 | normalising a key again gives the same key |
| MapGame.RawName | src/components/MapGame.jsx:30 | a feature has a usable name exactly when one of ADMIN, NAME, name is non-empty, and the name is ADMIN when that one is |
| MapGame.CountriesOf | src/components/MapGame.jsx:28-33 | each named feature gives one country, and every country comes from a named feature |
| MapGame.Continents | src/components/MapGame.jsx:37-40 | the menu is "All" followed by the non-empty continents, strictly sorted, each present in the data |
| MapGame.ContinentsDistinct | src/components/MapGame.jsx:38-39 | the continents after "All" are pairwise different |
| MapGame.Available | src/components/MapGame.jsx:44-49 | the available countries are those not yet revealed and in the chosen continent, compared without case |
| MapGame.PickTarget | src/components/MapGame.jsx:43-54 | no target exactly when no country is available; otherwise the target names an available, unrevealed country |
| MapGame.EveryEligibleCanBePicked | src/components/MapGame.jsx:51-53 | every available country is the target for some draw |
| MapGame.MapQuiz.constructor | src/components/MapGame.jsx:16-23 | the quiz starts at round 1 with score 0, the prompt, no target, nothing revealed and the "All" filter |
| MapGame.MapQuiz.InitTarget | src/components/MapGame.jsx:57-62 | a target is picked, with the filter and what is revealed, once countries are loaded and none is set; otherwise it is kept; nothing else changes |
| MapGame.MapQuiz.ChangeFilter | src/components/MapGame.jsx:65-78 | with countries loaded, a new filter restarts the game: score 0, round 1, nothing revealed, no wrong name, the prompt, and a target from the new continent; the lock is not touched |
| MapGame.MapQuiz.CheckComplete | src/components/MapGame.jsx:81-86 | with no target left after some reveals, the game is over and locked |
| MapGame.MapQuiz.Click | src/components/MapGame.jsx:116-126 | clicks while locked or without a target change nothing; otherwise the click is right exactly when its normalised name equals the target's, and is answered as below |
| MapGame.MapQuiz.Answer | src/components/MapGame.jsx:122-138 | either way the target is revealed, input is locked and an advance is scheduled; a right answer scores and clears the wrong name, a wrong one records the clicked name without scoring |
| MapGame.MapQuiz.Advance | src/components/MapGame.jsx:127-146 | a scheduled step moves to the next round, unlocks, shows the prompt and picks a target outside what was revealed when it was scheduled; a wrong name is cleared; without one nothing changes |
| MapGame.MapQuiz.Reset | src/components/MapGame.jsx:154-162 | restart clears score, round, reveals and the wrong name, shows the prompt and picks a new target, but leaves the lock as it was |
| MapGame.StuckAfterComplete | src/components/MapGame.jsx:81-86 | once the lock is on with no advance scheduled (as after "game complete"), restart, filter change, clicks, advances and the completion check leave it locked, so the game cannot be played again without reloading |
| NumbersAndCounting.InitialNumbers | src/pages/skills/math/challenges/year2/numbers-and-counting/NumbersAndCountingChallenge1.jsx:8-10 | five numbers, each between 1 and 100 |
| NumbersAndCounting.AllInPlaceIffOrdered | src/pages/skills/math/challenges/year2/numbers-and-counting/NumbersAndCountingChallenge1.jsx:23-25 | every number equals the sorted copy at its position exactly when the list is ordered |
| NumbersAndCounting.OrderChallenge.DragEnd | src/pages/skills/math/challenges/year2/numbers-and-counting/NumbersAndCountingChallenge1.jsx:14-20 | a drop outside the list changes nothing; otherwise the number moves to the drop position and the numbers stay the same multiset |
| NumbersAndCounting.OrderChallenge.Submit | src/pages/skills/math/challenges/year2/numbers-and-counting/NumbersAndCountingChallenge1.jsx:23-31 | the answer is accepted exactly when the numbers are in order (ascending, or descending in the second challenge) |
| NumbersAndCounting.StartThree | src/pages/skills/math/challenges/year2/numbers-and-counting/NumbersAndCountingChallenge3.jsx:6 | the start is between 0 and 99 |
| NumbersAndCounting.StartFour | src/pages/skills/math/challenges/year2/numbers-and-counting/NumbersAndCountingChallenge4.jsx:6 | the start is between 1 and 50 |
| NumbersAndCounting.StepFour | src/pages/skills/math/challenges/year2/numbers-and-counting/NumbersAndCountingChallenge4.jsx:7 | the step is 2, 5 or 10 |
| NumbersAndCounting.MissingIndices | src/pages/skills/math/challenges/year2/numbers-and-counting/NumbersAndCountingChallenge3.jsx:10-14 | three to five positions below 10, strictly increasing, which are the first ones of the shuffled order |
| NumbersAndCounting.ExactAnswersAccepted | src/pages/skills/math/challenges/year2/numbers-and-counting/NumbersAndCountingChallenge3.jsx:27-33 | typing exactly the hidden numbers is accepted |
| NumbersAndCounting.AcceptedAnswersHaveTheValues | src/pages/skills/math/challenges/year2/numbers-and-counting/NumbersAndCountingChallenge3.jsx:27-33 | an accepted answer holds the hidden number at every blank |
| NumbersAndCounting.LeadingZeroRejected | src/pages/skills/math/challenges/year2/numbers-and-counting/NumbersAndCountingChallenge3.jsx:28-31 | the right number typed with a leading zero is rejected, because strings are compared |
| NumbersAndCounting.FillInChallenge.Three | src/pages/skills/math/challenges/year2/numbers-and-counting/NumbersAndCountingChallenge3.jsx:6-18 | ten consecutive numbers from the start, with the drawn blanks and no answers |
| NumbersAndCounting.FillInChallenge.Four | src/pages/skills/math/challenges/year2/numbers-and-counting/NumbersAndCountingChallenge4.jsx:6-21 | ten numbers from the start by the drawn step, with the drawn blanks, and the step remembered for the message |
| NumbersAndCounting.FillInChallenge.Change | src/pages/skills/math/challenges/year2/numbers-and-counting/NumbersAndCountingChallenge3.jsx:20-25 | the typed text is stored with its non-digits removed |
| NumbersAndCounting.FillInChallenge.Submit | src/pages/skills/math/challenges/year2/numbers-and-counting/NumbersAndCountingChallenge3.jsx:27-38 | the answer is accepted exactly when every blank, and nothing else, is filled with its number's text |
| CountingBack.CorrectAnswers | src/pages/skills/math/challenges/year2/counting-forwards-and-backwards/CountingForwardsAndBackwardsChallenge1.jsx:5-7 | each answer plus its count-back is the start number |
| CountingBack.CountBackAnswers | src/pages/skills/math/challenges/year2/counting-forwards-and-backwards/CountingForwardsAndBackwardsChallenge1.jsx:5-7 | the answers are 21, 18, 17, 14, 11 and 16, all on the 11–30 number line shown |
| CountingBack.CountBackChallenge.Change | src/pages/skills/math/challenges/year2/counting-forwards-and-backwards/CountingForwardsAndBackwardsChallenge1.jsx:12-17 | the typed text is stored with its non-digits removed |
| CountingBack.CountBackChallenge.Submit | src/pages/skills/math/challenges/year2/counting-forwards-and-backwards/CountingForwardsAndBackwardsChallenge1.jsx:19-30 | accepted exactly when all six answers, and nothing else, are the right numbers' text |
| CountingBack.CountBackAccepted | src/pages/skills/math/challenges/year2/counting-forwards-and-backwards/CountingForwardsAndBackwardsChallenge1.jsx:19-24 | typing the six right answers is accepted |
| CountingBack.QuestionsWellFormed | src/pages/skills/math/challenges/year2/counting-forwards-and-backwards/CountingForwardsAndBackwardsChallenge2.jsx:4-56 | ten questions, each with its answer among its options |
| CountingBack.QuestionChallenge.Select | src/pages/skills/math/challenges/year2/counting-forwards-and-backwards/CountingForwardsAndBackwardsChallenge2.jsx:96-98 | an option is selected unless the question is locked |
| CountingBack.QuestionChallenge.Submit | src/pages/skills/math/challenges/year2/counting-forwards-and-backwards/CountingForwardsAndBackwardsChallenge2.jsx:65-85 | with nothing selected nothing happens; the right option locks the question and schedules the next one; a wrong one asks to try again |
| CountingBack.QuestionChallenge.Advance | src/pages/skills/math/challenges/year2/counting-forwards-and-backwards/CountingForwardsAndBackwardsChallenge2.jsx:72-81 | the delayed step moves to the next question, cleared and unlocked, or completes after the tenth |
| CountingBack.PatternsLongEnough | src/pages/skills/math/challenges/year2/counting-forwards-and-backwards/CountingForwardsAndBackwardsChallenge3.jsx:14-25 | both challenges have ten patterns, each at least three long, so three blanks always fit |
| CountingBack.DownwardSigns | src/pages/skills/math/challenges/year2/counting-forwards-and-backwards/CountingForwardsAndBackwardsChallenge4.jsx:14-25 | counting down, only the seventh pattern reaches a negative number (its last value is -1) |
| CountingBack.Blanked | src/pages/skills/math/challenges/year2/counting-forwards-and-backwards/CountingForwardsAndBackwardsChallenge3.jsx:6-10 | the loop only adds positions, never holds more than three, and every blank is a position of the sequence |
| CountingBack.GenerateSequence | src/pages/skills/math/challenges/year2/counting-forwards-and-backwards/CountingForwardsAndBackwardsChallenge3.jsx:4-12 | the result is missing exactly when the loop has not reached three blanks after the draws; otherwise the items are the pattern's numbers and the blanks are exactly the three positions the loop drew; a pattern shorter than three never finishes |
| CountingBack.SequenceFinishes | src/pages/skills/math/challenges/year2/counting-forwards-and-backwards/CountingForwardsAndBackwardsChallenge3.jsx:6-10 | with at least three numbers, drawing positions 0, 1 and 2 ends the loop with those blanks |
| CountingBack.SequenceStuck | src/pages/skills/math/challenges/year2/counting-forwards-and-backwards/CountingForwardsAndBackwardsChallenge3.jsx:6-10 | with fewer than three numbers the loop has fewer than three blanks whatever the draws |
| CountingBack.SequenceEndsIff | src/pages/skills/math/challenges/year2/counting-forwards-and-backwards/CountingForwardsAndBackwardsChallenge3.jsx:6-10 | some draws end the loop exactly when the pattern has at least three numbers |
| CountingBack.CheckAnswers | src/pages/skills/math/challenges/year2/counting-forwards-and-backwards/CountingForwardsAndBackwardsChallenge3.jsx:45-50 | the answers are right exactly when every blank's input reads, as a number, as the hidden value |
| CountingBack.TypedValuesAccepted | src/pages/skills/math/challenges/year2/counting-forwards-and-backwards/CountingForwardsAndBackwardsChallenge3.jsx:47-48 | typing each hidden value's text is accepted, negative values included |
| CountingBack.SequenceChallenge.Change | src/pages/skills/math/challenges/year2/counting-forwards-and-backwards/CountingForwardsAndBackwardsChallenge3.jsx:41-43 | the typed text is stored as it is |
| CountingBack.SequenceChallenge.Submit | src/pages/skills/math/challenges/year2/counting-forwards-and-backwards/CountingForwardsAndBackwardsChallenge3.jsx:45-65 | the answer is accepted and the next step scheduled exactly when every blank is right |
| CountingBack.SequenceChallenge.Advance | src/pages/skills/math/challenges/year2/counting-forwards-and-backwards/CountingForwardsAndBackwardsChallenge3.jsx:53-61 | the delayed step moves to the next pattern with cleared inputs, or completes after the tenth |
| Distractors.CollectLoop | src/pages/MathPractice.jsx:47-54 | the loop computes the same wrong answers as the recursive definition |
| Distractors.CollectFits | src/pages/MathPractice.jsx:47-54 | the collected answers are distinct, differ from the answer, pass the floor, lie in the drawing window and number at most three |
| Distractors.CollectStuck | src/pages/MathPractice.jsx:47-54 | when at most two values can pass the test, the loop never reaches three, whatever the draws |
| Distractors.CollectFinishes | src/pages/MathPractice.jsx:47-54 | three different passing offsets give draws that end the loop |
| Distractors.Options | src/pages/MathPractice.jsx:56 | four distinct options: the answer and the three wrong answers, shuffled |
| MathPractice.DrawInRange | src/pages/MathPractice.jsx:14-15 | a draw lies between min and max |
| MathPractice.DrawPositive | src/pages/MathPractice.jsx:113-161 | with the settings the sliders allow, every drawn number is at least 1 |
| MathPractice.Divisor | src/pages/MathPractice.jsx:36 | the divisor is never 0 |
| MathPractice.AnswerComputes | src/pages/MathPractice.jsx:21-41 | the answer is the sum, the first number minus the others, the product, or the quotient of an exact division |
| MathPractice.AnswerPositive | src/pages/MathPractice.jsx:21-41 | with allowed settings, addition, multiplication and division give an answer of at least 1 |
| MathPractice.AsWrittenNeverEnds | src/pages/MathPractice.jsx:47-54 | with an answer of -3 or less the distractor loop as written never finishes |
| MathPractice.AsWrittenCanEndIff | src/pages/MathPractice.jsx:47-54 | the loop as written can finish exactly when the answer is at least -2 |
| MathPractice.SubtractionCanHang | src/pages/MathPractice.jsx:26-29 | allowed settings draw 1 − 4 = −3, on which the loop hangs |
| MathPractice.IncorrectAnswers | src/pages/MathPractice.jsx:47-54 | corrected loop: at most three distinct wrong answers within answer − 5 .. answer + 4, none equal to the answer, and never negative for an answer of at least −2 |
| MathPractice.CorrectedCanEnd | src/pages/MathPractice.jsx:47-54 | the corrected loop can finish for every answer |
| MathPractice.CorrectedAgrees | src/pages/MathPractice.jsx:51 | for every answer where the loop as written can finish (at least −2), the corrected loop is the loop as written |
| MathPractice.GenerateQuestion | src/pages/MathPractice.jsx:13-59 | no question exactly when the draws run out; otherwise the right answer for the drawn numbers, and options that are it plus the wrong answers |
| MathPractice.Practice.constructor | src/pages/MathPractice.jsx:62-73 | addition of two numbers from 1 to 10, not started, score 0 of 0 |
| MathPractice.Practice.ChangeSettings | src/pages/MathPractice.jsx:113-161 | the setup screen replaces the settings and nothing else |
| MathPractice.Practice.Start | src/pages/MathPractice.jsx:85-90 | starting zeroes score and total and shows a well-formed question with the right answer |
| MathPractice.Practice.Select | src/pages/MathPractice.jsx:92-99 | only the first choice counts: total up by one, score up exactly when it is the answer |
| MathPractice.Practice.Next | src/pages/MathPractice.jsx:75-83 | after a choice during practice, a new question with the choice cleared |
| MathPractice.Practice.Restart | src/pages/MathPractice.jsx:101-105 | back to setup with no question and no choice, score kept |
| FindTheMissingNumber.StartNumber | src/pages/skills/math/FindTheMissingNumber.jsx:14 | the start is between 1 and 20 |
| FindTheMissingNumber.MissingIndex | src/pages/skills/math/FindTheMissingNumber.jsx:18 | the hidden position is one of the four |
| FindTheMissingNumber.HiddenNumberIsOne | src/pages/skills/math/FindTheMissingNumber.jsx:14-19 | the hidden number is at least 1, and is 1 exactly when the start is 1 and the first number is hidden |
| FindTheMissingNumber.AsWrittenNeverEnds | src/pages/skills/math/FindTheMissingNumber.jsx:22-29 | with a hidden number of 1 or less the loop as written never finishes |
| FindTheMissingNumber.AsWrittenCanEndIff | src/pages/skills/math/FindTheMissingNumber.jsx:22-29 | the loop as written can finish exactly when the hidden number is at least 2 |
| FindTheMissingNumber.FirstQuestionCanHang | src/pages/skills/math/FindTheMissingNumber.jsx:38-39 | the default skip of 2 with start 1 and the first number hidden hangs the first question |
| FindTheMissingNumber.Incorrect | src/pages/skills/math/FindTheMissingNumber.jsx:22-29 | corrected loop: at most three distinct, non-negative wrong options within 2 of the answer and not equal to it, all positive for a hidden number of at least 2 |
| FindTheMissingNumber.CorrectedCanEnd | src/pages/skills/math/FindTheMissingNumber.jsx:22-29 | the corrected loop can finish for every hidden number the game produces |
| FindTheMissingNumber.CorrectedAgrees | src/pages/skills/math/FindTheMissingNumber.jsx:26 | for every hidden number where the loop as written can finish (at least 2), the corrected loop is the loop as written |
| FindTheMissingNumber.GeneratePattern | src/pages/skills/math/FindTheMissingNumber.jsx:13-34 | no pattern exactly when the draws run out; otherwise four numbers by the skip from the drawn start, the drawn position hidden, and options that are the answer plus the wrong ones |
| FindTheMissingNumber.Displayed | src/pages/skills/math/FindTheMissingNumber.jsx:103-105 | the hidden position shows "__" and only it; the others show their numbers |
| FindTheMissingNumber.MissingNumberPractice.constructor | src/pages/skills/math/FindTheMissingNumber.jsx:37-42 | skip 2, not started, score 0 of 0, a first pattern already drawn |
| FindTheMissingNumber.MissingNumberPractice.ChangeSkip | src/pages/skills/math/FindTheMissingNumber.jsx:85-93 | the setup menu replaces the skip and nothing else |
| FindTheMissingNumber.MissingNumberPractice.Start | src/pages/skills/math/FindTheMissingNumber.jsx:54-59 | starting zeroes score and total and draws a pattern for the chosen skip |
| FindTheMissingNumber.MissingNumberPractice.Select | src/pages/skills/math/FindTheMissingNumber.jsx:61-68 | only the first choice counts: total up by one, score up exactly when it is the hidden number |
| FindTheMissingNumber.MissingNumberPractice.Next | src/pages/skills/math/FindTheMissingNumber.jsx:44-52 | after a choice, a new pattern with the choice cleared |
| FindTheMissingNumber.MissingNumberPractice.Restart | src/pages/skills/math/FindTheMissingNumber.jsx:70-73 | back to setup with the choice cleared; the pattern and score are kept |
| Memory.CardsOf | src/pages/skills/math/NumberBonds.jsx:24-27 | two cards per pair, each naming the other as its partner, with ids their positions |
| Memory.Find | src/pages/skills/math/NumberBonds.jsx:79 | a card is found exactly when one has the id |
| Memory.AllMatched | src/pages/skills/math/NumberBonds.jsx:103 | when as many distinct ids are matched as there are cards, every card is matched |
| Memory.FlipStep | src/pages/skills/math/NumberBonds.jsx:72-75 | flipping a new unmatched card while fewer than two are up keeps the table consistent |
| Memory.MatchStep | src/pages/skills/math/NumberBonds.jsx:82-86 | moving the two flipped cards to the matched ones keeps the table consistent |
| NumberBonds.PairsUpTo | src/pages/skills/math/NumberBonds.jsx:17-21 | the pairs a ≤ b with a + b the target, in increasing order of a |
| NumberBonds.CandidatePairs | src/pages/skills/math/NumberBonds.jsx:17-21 | exactly the bonds of the target, distinct, target / 2 of them |
| NumberBonds.CardsMatchable | src/pages/skills/math/NumberBonds.jsx:24-27 | every card of bond pairs has a partner card, and the two add up to the target |
| NumberBonds.GenerateCards | src/pages/skills/math/NumberBonds.jsx:16-29 | twice min(6, target / 2) cards with distinct ids, each with a partner making the target |
| NumberBonds.MatchablePermutation | src/pages/skills/math/NumberBonds.jsx:28 | shuffling keeps every card matchable |
| NumberBonds.MakeQuestion | src/pages/skills/math/NumberBonds.jsx:49-55 | both numbers lie between 1 and target − 1 and add up to the target |
| NumberBonds.TypedAnswerAccepted | src/pages/skills/math/NumberBonds.jsx:118-126 | typing the answer's digits is accepted; an empty answer is not |
| NumberBonds.TypedTargetTaken | src/pages/skills/math/NumberBonds.jsx:163-166 | typing a whole number sets it as the target exactly when it is above 1, and an empty field sets nothing |
| NumberBonds.BondsGame.constructor | src/pages/skills/math/NumberBonds.jsx:33-46 | target 10 in match mode with ten matchable cards and nothing flipped or matched |
| NumberBonds.BondsGame.Flip | src/pages/skills/math/NumberBonds.jsx:72-75 | a card is turned unless two are up or it is up or matched already |
| NumberBonds.BondsGame.Evaluate | src/pages/skills/math/NumberBonds.jsx:77-92 | two flipped cards count a try; cards making the target are matched and turned down, others stay up with "wrong" |
| NumberBonds.BondsGame.TurnBack | src/pages/skills/math/NumberBonds.jsx:89 | the delayed step turns the cards down |
| NumberBonds.BondsGame.ClearFeedback | src/pages/skills/math/NumberBonds.jsx:95-99 | feedback is cleared and nothing else changes |
| NumberBonds.BondsGame.NewRound | src/pages/skills/math/NumberBonds.jsx:58-69 | fresh matchable cards for the target, with all counters zeroed |
| NumberBonds.BondsGame.SelectTarget | src/pages/skills/math/NumberBonds.jsx:140-148 | a preset sets the target and clears the custom flag; "custom" only sets the flag |
| NumberBonds.BondsGame.TypeCustomTarget | src/pages/skills/math/NumberBonds.jsx:163-166 | a valid custom number becomes the target; anything else is ignored |
| NumberBonds.BondsGame.SelectMode | src/pages/skills/math/NumberBonds.jsx:176 | the mode changes and the cards and target are kept |
| NumberBonds.BondsGame.NewQuestion | src/pages/skills/math/NumberBonds.jsx:49-55 | a new practice question for the target with the answer and feedback cleared |
| NumberBonds.BondsGame.TypeAnswer | src/pages/skills/math/NumberBonds.jsx:45 | the typed answer is stored |
| NumberBonds.BondsGame.Submit | src/pages/skills/math/NumberBonds.jsx:118-126 | the feedback tells whether the answer parses to the right number |
| NumberBonds.CompleteMeansAllMatched | src/pages/skills/math/NumberBonds.jsx:102-104 | when the round is complete, every card is matched |
| FractionFun.GenerateFraction | src/pages/skills/math/FractionFun.jsx:6-11 | a proper fraction with a listed denominator and a numerator between 1 and denominator − 1 |
| FractionFun.EveryFractionPossible | src/pages/skills/math/FractionFun.jsx:6-11 | every such fraction is drawn for some draws |
| FractionFun.Toggle | src/pages/skills/math/FractionFun.jsx:19-24 | the clicked segment changes state and no other one does |
| FractionFun.ToggleTwice | src/pages/skills/math/FractionFun.jsx:19-24 | clicking a segment twice restores the selection |
| FractionFun.Segments | src/pages/skills/math/FractionFun.jsx:50-56 | the bar has exactly the segments 0 .. n − 1 |
| FractionFun.CorrectShadingExists | src/pages/skills/math/FractionFun.jsx:26-28 | shading the first numerator segments is a selection of the bar of the right size |
| FractionFun.FractionGame.constructor | src/pages/skills/math/FractionFun.jsx:15-17 | a drawn fraction with nothing shaded and no feedback |
| FractionFun.FractionGame.Select | src/pages/skills/math/FractionFun.jsx:19-24 | clicking a segment toggles it |
| FractionFun.FractionGame.Check | src/pages/skills/math/FractionFun.jsx:26-39 | the feedback is right exactly when the count shaded is the numerator |
| FractionFun.FractionGame.Next | src/pages/skills/math/FractionFun.jsx:30-34 | the delayed step draws a new fraction and clears the bar |
| FractionFun.FractionGame.ClearFeedback | src/pages/skills/math/FractionFun.jsx:37 | feedback is cleared and nothing else changes |
| ShapeQuiz.ShapesUnique | src/components/ShapeQuiz.jsx:3-15 | eleven shapes with distinct ids |
| ShapeQuiz.Without | src/components/ShapeQuiz.jsx:31 | the other shapes are those with another id |
| ShapeQuiz.WithoutOne | src/components/ShapeQuiz.jsx:31 | removing a listed shape's id removes exactly one shape |
| ShapeQuiz.GenerateQuestion | src/components/ShapeQuiz.jsx:28-41 | the drawn shape with four options of distinct ids, the shape among them |
| ShapeQuiz.Options | src/components/ShapeQuiz.jsx:31-35 | four options with distinct ids: the shape and three others |
| ShapeQuiz.PickedById | src/components/ShapeQuiz.jsx:64 | among the options, comparing ids is comparing shapes |
| ShapeQuiz.Quiz.constructor | src/components/ShapeQuiz.jsx:44-47 | a drawn question, no choice, score 0 of 0 |
| ShapeQuiz.Quiz.Select | src/components/ShapeQuiz.jsx:59-67 | only the first choice counts: total up by one, score up exactly when it is the shape |
| ShapeQuiz.Quiz.Next | src/components/ShapeQuiz.jsx:49-57 | after a choice, a new question with the choice cleared |
| WordBuilder.AlphabetLetters | src/pages/skills/english/WordBuilder.jsx:21 | the alphabet is the 26 lower-case letters, once each |
| WordBuilder.WordsLower | src/pages/skills/english/WordBuilder.jsx:4 | every word is made of lower-case letters |
| WordBuilder.GenerateQuestion | src/pages/skills/english/WordBuilder.jsx:16-33 | the drawn word and position, with four distinct letter options including the missing letter |
| WordBuilder.Display | src/pages/skills/english/WordBuilder.jsx:61-64 | the word with only the missing position changed |
| WordBuilder.DisplayBlank | src/pages/skills/english/WordBuilder.jsx:61-64 | exactly the missing position shows '_', and filling in the right letter gives the word back |
| WordBuilder.Builder.constructor | src/pages/skills/english/WordBuilder.jsx:36-39 | a drawn question, no choice, score 0 of 0 |
| WordBuilder.Builder.Select | src/pages/skills/english/WordBuilder.jsx:51-59 | only the first choice counts: total up by one, score up exactly when it is the missing letter |
| WordBuilder.Builder.Next | src/pages/skills/english/WordBuilder.jsx:41-49 | after a choice, a new question with the choice cleared |
| SynonymSafari.PairCount | src/pages/skills/english/SynonymSafari.jsx:52 | easy gives 4 pairs, medium 6, anything else 8 |
| SynonymSafari.SynonymWordsDifferent | src/pages/skills/english/SynonymSafari.jsx:5-22 | sixteen distinct pairs in which no word appears twice |
| SynonymSafari.CardsOfProperties | src/pages/skills/english/SynonymSafari.jsx:37-40 | cards of distinct pairs have distinct words, and each names a partner card from the same pair |
| SynonymSafari.GenerateCards | src/pages/skills/english/SynonymSafari.jsx:35-42 | two cards per pair, distinct ids and words, each card's partner on the table |
| SynonymSafari.Deal | src/pages/skills/english/SynonymSafari.jsx:35-42 | the same, for any list of distinct pairs with distinct words |
| SynonymSafari.CardsPermutation | src/pages/skills/english/SynonymSafari.jsx:41 | shuffling keeps words distinct and partners present |
| SynonymSafari.MatchSymmetric | src/pages/skills/english/SynonymSafari.jsx:84 | if one card names another as its synonym, the other names it back, and they are two cards |
| SynonymSafari.Safari.constructor | src/pages/skills/english/SynonymSafari.jsx:48-70 | the kept difficulty (medium when none or an empty one is kept), listed synonym cards and all counters zero; the mount effect writes the difficulty back, and reading it again gives the same difficulty |
| SynonymSafari.Safari.NewRound | src/pages/skills/english/SynonymSafari.jsx:107-120 | fresh listed cards for the difficulty with all counters zeroed |
| SynonymSafari.Safari.ChangeDifficulty | src/pages/skills/english/SynonymSafari.jsx:62-70 | a new difficulty deals twice its pair count of cards and zeroes the counters; it is written to local storage, and a reload reads it back (any non-empty name) |
| SynonymSafari.Safari.Flip | src/pages/skills/english/SynonymSafari.jsx:73-76 | a card is turned unless two are up or it is up or matched already |
| SynonymSafari.Safari.Evaluate | src/pages/skills/english/SynonymSafari.jsx:79-97 | two flipped cards count a try; synonyms are matched and turned down, others stay up with "wrong" |
| SynonymSafari.Safari.TurnBack | src/pages/skills/english/SynonymSafari.jsx:93 | the delayed step turns the cards down |
| SynonymSafari.Safari.ClearFeedback | src/pages/skills/english/SynonymSafari.jsx:100-104 | feedback is cleared and nothing else changes |
| SynonymSafari.Safari.Finish | src/pages/skills/english/SynonymSafari.jsx:108-109 | a completed round shows "done" and changes nothing else |
| SynonymSafari.CompleteMeansAllMatched | src/pages/skills/english/SynonymSafari.jsx:108 | when the round is complete every card is matched, and the matches equal the pair count |
| OppositeMatch.LeftWordsDistinct | src/pages/OppositeMatch.jsx:6-58 | no word is the first word of two pairs |
| OppositeMatch.GetRandomPairs | src/pages/OppositeMatch.jsx:61-64 | min(count, 36) distinct pairs drawn from the list of opposites |
| OppositeMatch.Draw | src/pages/OppositeMatch.jsx:61-64 | min(count, length) distinct pairs drawn from any list whose first words differ |
| OppositeMatch.TwoOldZones | src/pages/OppositeMatch.jsx:42-43 | a round can hold two pairs with the same opposite ("old"), so two drop zones share one name |
| OppositeMatch.FindPair | src/pages/OppositeMatch.jsx:89 | the pair found for a word starts with that word, and none is found exactly when no pair starts with it |
| OppositeMatch.RightDropIff | src/pages/OppositeMatch.jsx:89-90 | a drop is right exactly when the word and the zone form one of the round's pairs |
| OppositeMatch.SetupWords | src/pages/OppositeMatch.jsx:77-80 | the left column is the first words shuffled, the right column the opposites shuffled |
| OppositeMatch.Game.constructor | src/pages/OppositeMatch.jsx:68-80 | drawn pairs, no matches, score 0 of 0 |
| OppositeMatch.Game.Drop | src/pages/OppositeMatch.jsx:83-103 | a drop outside changes nothing; a drop counts one, and a right one scores and records the match |
| OppositeMatch.Game.ClearFeedback | src/pages/OppositeMatch.jsx:101 | feedback is cleared and nothing else changes |
| OppositeMatch.Game.Finish | src/pages/OppositeMatch.jsx:106-108 | a finished round shows "done" and changes nothing else |
| OppositeMatch.Game.NewRound | src/pages/OppositeMatch.jsx:109-113 | new pairs with no matches; score and total kept |
| OppositeMatch.DoneIffAllMatched | src/pages/OppositeMatch.jsx:107 | the round is done exactly when every left word is matched |
| WordSorter.BankWordsDistinct | src/pages/WordSorter.jsx:7-49 | no word appears twice in the bank |
| WordSorter.GenerateSet | src/pages/WordSorter.jsx:53-56 | six distinct bank entries |
| WordSorter.Draw | src/pages/WordSorter.jsx:53-56 | six distinct entries from any list of at least six distinct words |
| WordSorter.SixNounsPossible | src/pages/WordSorter.jsx:52-56 | a set can be six nouns: nothing ensures "two of each type" |
| WordSorter.FindEntry | src/pages/WordSorter.jsx:81 | the entry found has the dragged word, and none is found exactly when no tile has it |
| WordSorter.RemoveWord | src/pages/WordSorter.jsx:89 | the tiles left are those with another word |
| WordSorter.RemoveOne | src/pages/WordSorter.jsx:89 | with distinct words, removing a tile's word removes just that tile |
| WordSorter.CorrectCount | src/pages/WordSorter.jsx:98 | at most the number placed, and all of them exactly when every word is in the bucket of its kind |
| WordSorter.KindCount | src/pages/WordSorter.jsx:98 | at most the length, and all exactly when every word is of the kind |
| WordSorter.CountByBucket | src/pages/WordSorter.jsx:97-98 | with distinct tiles the count is the nouns in the noun bucket plus the verbs in the verb bucket plus the adjectives in the adjective bucket |
| WordSorter.Sorter.constructor | src/pages/WordSorter.jsx:60-69 | six drawn words, empty buckets, score 0 of 0 |
| WordSorter.Sorter.Drop | src/pages/WordSorter.jsx:72-90 | drops outside, onto the bank or of an unknown word change nothing; otherwise the tile leaves the bank and joins the bucket; no tile is lost or duplicated |
| WordSorter.Sorter.Move | src/pages/WordSorter.jsx:84-89 | a bank tile moves into the chosen bucket and nothing else changes |
| WordSorter.Sorter.Settle | src/pages/WordSorter.jsx:93-106 | with six placed, the score gains the correct count, the total six, and the feedback is right exactly when all six are correct |
| WordSorter.Sorter.NextSet | src/pages/WordSorter.jsx:107-112 | six new words and empty buckets; score and total kept |
| WordSorter.MoveTile | src/pages/WordSorter.jsx:84-89 | moving a tile keeps the tiles on the board the same multiset |
| WordSorter.SettledScore | src/pages/WordSorter.jsx:97-98 | on the board, the score counts words of each bucket's own kind |
| SentenceBuilder.GenerateQuestion | src/pages/skills/english/SentenceBuilder.jsx:31-38 | the drawn sentence split at its spaces, which join back into it, and a permutation of its words |
| SentenceBuilder.PiecesPermutation | src/pages/skills/english/SentenceBuilder.jsx:36 | a rearrangement of space-free words is still space-free |
| SentenceBuilder.SameSentenceIff | src/pages/skills/english/SentenceBuilder.jsx:64 | joined with spaces, two lists of space-free words read the same exactly when they are equal |
| SentenceBuilder.AllChipsIff | src/pages/skills/english/SentenceBuilder.jsx:104-110 | every chip is green exactly when the check accepts the order |
| SentenceBuilder.Dragged | src/pages/skills/english/SentenceBuilder.jsx:50-57 | any series of drags keeps the same words |
| SentenceBuilder.Solvable | src/pages/skills/english/SentenceBuilder.jsx:50-57 | from any shuffled order, at most one drag per word builds the sentence |
| SentenceBuilder.Builder.constructor | src/pages/skills/english/SentenceBuilder.jsx:42-47 | the first question shown scrambled, unchecked, score 0 of 0 |
| SentenceBuilder.Builder.DragEnd | src/pages/skills/english/SentenceBuilder.jsx:50-57 | a drop outside or after checking changes nothing; otherwise the word moves to the drop position |
| SentenceBuilder.Builder.Check | src/pages/skills/english/SentenceBuilder.jsx:60-67 | only the first check counts: total up by one, score up exactly when the words are in the sentence's order |
| SentenceBuilder.Builder.Advance | src/pages/skills/english/SentenceBuilder.jsx:70-81 | after a check, a new drawn question shown scrambled and unlocked; score kept |
| SightWordPop.PickOther | src/pages/skills/english/SightWordPop.jsx:73-74 | a word of the list other than the given one |
| SightWordPop.NextTarget | src/pages/skills/english/SightWordPop.jsx:71-76 | the new target is a sight word different from the old |
| SightWordPop.BubbleWord | src/pages/skills/english/SightWordPop.jsx:97 | a target bubble carries the target, another one a different sight word |
| SightWordPop.FreeLanes | src/pages/skills/english/SightWordPop.jsx:64-66 | exactly the lanes that are not busy |
| SightWordPop.ChooseLane | src/pages/skills/english/SightWordPop.jsx:62-69 | a free lane, or none exactly when all five are busy |
| SightWordPop.WithoutBubble | src/pages/skills/english/SightWordPop.jsx:56 | the bubbles left are those with another id |
| SightWordPop.TargetsWithout | src/pages/skills/english/SightWordPop.jsx:181 | removing a bubble removes one target exactly when it was one |
| SightWordPop.Pop.constructor | src/pages/skills/english/SightWordPop.jsx:23-37 | options screen, 45 seconds, 12 targets, score 0, no bubbles |
| SightWordPop.Pop.SetDuration | src/pages/skills/english/SightWordPop.jsx:204-211 | the slider sets the duration and nothing else |
| SightWordPop.Pop.SetTargetTotal | src/pages/skills/english/SightWordPop.jsx:216-223 | the slider sets the number of targets and nothing else |
| SightWordPop.Pop.Start | src/pages/skills/english/SightWordPop.jsx:162-171 | play starts with the full time, a drawn target, score 0 and no bubbles |
| SightWordPop.Pop.Spawn | src/pages/skills/english/SightWordPop.jsx:83-131 | no bubble when time is up, the targets are all shown or no lane is free; otherwise one new bubble in a free lane, a target when drawn or after four others |
| SightWordPop.Pop.Launch | src/pages/skills/english/SightWordPop.jsx:99-129 | the new bubble gets the next id and its lane becomes busy; the target count and the gap since the last target are updated |
| SightWordPop.Pop.Tick | src/pages/skills/english/SightWordPop.jsx:142-144 | a second passes and nothing else changes |
| SightWordPop.Pop.Expire | src/pages/skills/english/SightWordPop.jsx:54-60 | the bubble disappears and its lane is freed |
| SightWordPop.Pop.Click | src/pages/skills/english/SightWordPop.jsx:179-190 | the bubble disappears and its lane is freed; a target scores one and changes the target word |
| SightWordPop.Pop.CheckEnd | src/pages/skills/english/SightWordPop.jsx:150-159 | play ends when time is up or all targets are shown, clearing bubbles and lanes |
| SightWordPop.Pop.Restart | src/pages/skills/english/SightWordPop.jsx:173-177 | back to options with no bubbles and free lanes |
| SightWordPop.ScoreBounded | src/pages/skills/english/SightWordPop.jsx:124-126 | the score never passes the number of targets shown |
| FlagFinder.Formatted | src/pages/FlagFinder.jsx:45-49 | a usable record gives a trimmed name, its flag and a non-empty alt text, its own when present |
| FlagFinder.Format | src/pages/FlagFinder.jsx:43-49 | every usable record, and only those, gives a country; the list is empty exactly when none is usable |
| FlagFinder.BlankNameKept | src/pages/FlagFinder.jsx:44-46 | a name of one space passes the filter and becomes the empty name |
| FlagFinder.PickFits | src/pages/FlagFinder.jsx:19-22 | the options loop keeps at most four options with distinct names, all from the list |
| FlagFinder.FitsBound | src/pages/FlagFinder.jsx:21 | there are never more options than distinct names |
| FlagFinder.Stuck | src/pages/FlagFinder.jsx:19-22 | with fewer than four distinct names the loop never finishes |
| FlagFinder.Finishes | src/pages/FlagFinder.jsx:19-22 | with four distinct names some draws finish the loop |
| FlagFinder.EndsIff | src/pages/FlagFinder.jsx:19-22 | the loop can finish exactly when the list has at least four distinct names |
| FlagFinder.PickLoop | src/pages/FlagFinder.jsx:17-22 | the loop computes the recursive options definition |
| FlagFinder.GenerateQuestion | src/pages/FlagFinder.jsx:15-28 | no question exactly when the loop does not finish; otherwise the drawn country with four options of distinct names, shuffled |
| FlagFinder.ShadeOf | src/pages/FlagFinder.jsx:102-111 | plain before a choice; green exactly on the right answer after one; red only on a wrong chosen option |
| FlagFinder.OneRight | src/pages/FlagFinder.jsx:102-111 | after a choice exactly one button is green and at most one red |
| FlagFinder.Finder.constructor | src/pages/FlagFinder.jsx:32-36 | no countries, no question, score 0 of 0 |
| FlagFinder.Finder.Load | src/pages/FlagFinder.jsx:42-53 | the countries are the formatted records; a question for the drawn country when there are any |
| FlagFinder.Finder.Select | src/pages/FlagFinder.jsx:67-74 | only the first choice counts: total up by one, score up exactly when it names the country |
| FlagFinder.Finder.Advance | src/pages/FlagFinder.jsx:57-65 | after a choice, a new question with the choice cleared |
| CitySpotlight.Others | src/pages/CitySpotlight.jsx:38 | the other cities are exactly those with another name, and they stay pairwise different |
| CitySpotlight.Options | src/pages/CitySpotlight.jsx:36-40 | up to three other names and the city's own, which appears exactly once; with distinct names, all options differ |
| CitySpotlight.Spotlight.constructor | src/pages/CitySpotlight.jsx:16-27 | the settings screen with the pool a shuffle of the city list |
| CitySpotlight.Spotlight.SetMode | src/pages/CitySpotlight.jsx:80 | the mode changes and nothing else |
| CitySpotlight.Spotlight.LoadNext | src/pages/CitySpotlight.jsx:51-61 | an empty pool ends the game; otherwise the front city becomes current, leaves the pool and counts in the total |
| CitySpotlight.Spotlight.StartGame | src/pages/CitySpotlight.jsx:43-49 | score 0 and the first city of the pool taken, so the total is 1 when there is one |
| CitySpotlight.Spotlight.Select | src/pages/CitySpotlight.jsx:67-71 | in picture mode, only the first choice counts, scoring exactly when it is the city's name; the total is not touched |
| CitySpotlight.Spotlight.NextRound | src/pages/CitySpotlight.jsx:29-34 | after a choice during a game, the next city is loaded |
| CitySpotlight.Spotlight.PlayAgain | src/pages/CitySpotlight.jsx:100-103 | back to the settings with a freshly shuffled pool of all cities |
| CitySpotlight.NoCityTwice | src/pages/CitySpotlight.jsx:51-61 | with distinct cities, no city is shown twice in a game |
| CitySpotlight.TotalBounded | src/pages/CitySpotlight.jsx:60 | the total never passes the number of cities, and the score never passes the total |
| CitySpotlight.AllShownIffPoolEmpty | src/pages/CitySpotlight.jsx:52 | every city has been shown exactly when the pool is empty |
| Js.DigitsOnly | src/pages/skills/math/challenges/year2/numbers-and-counting/NumbersAndCountingChallenge3.jsx:23 | only digits are left, and never more characters than the input |
| Js.DigitsOnlyIdempotent | src/pages/skills/math/challenges/year2/numbers-and-counting/NumbersAndCountingChallenge3.jsx:23 | filtering twice is filtering once, and the filter leaves a string unchanged exactly when it is all digits |
| Js.NumberValueOfIntToString | src/pages/skills/math/challenges/year2/counting-forwards-and-backwards/CountingForwardsAndBackwardsChallenge3.jsx:48 | `Number` reads back any integer's text as that integer |
| Js.ParseIntOfNatToString | src/pages/skills/math/NumberBonds.jsx:120 | `parseInt` reads a number's digits back, whatever non-digit follows |
| Js.JoinSplit | src/pages/skills/english/SentenceBuilder.jsx:33 | joining the pieces of a split gives the string back |
| Js.SplitJoin | src/pages/skills/english/SentenceBuilder.jsx:64 | splitting joined separator-free pieces gives the pieces back |
| Js.Move | src/pages/skills/english/SentenceBuilder.jsx:53-55 | the reorder puts the dragged element at the drop position, keeps the same elements, and removing it from both gives the same rest |
| Js.MoveBack | src/pages/skills/english/SentenceBuilder.jsx:53-55 | dragging an element back to where it came from undoes the drag |
| Shuffle.ShuffleArray | src/pages/skills/english/SentenceBuilder.jsx:21-28 | the shuffled list has the same elements, counted with repeats |
| Shuffle.ShuffledOptions | src/components/ShapeQuiz.jsx:31-35 | four distinct options: the answer and three of the others |
| Shuffle.Take | src/pages/CitySpotlight.jsx:38 | min(count, length) elements of the list, distinct when the list is |
| Drill.Sort | src/pages/skills/math/challenges/year2/numbers-and-counting/NumbersAndCountingChallenge1.jsx:24 | the sorted copy is ordered and a permutation |
| Drill.SortedIffOrdered | src/pages/skills/math/challenges/year2/numbers-and-counting/NumbersAndCountingChallenge1.jsx:24-25 | a list equals its sorted copy exactly when it is ordered |
| Drill.Stepped | src/pages/skills/math/challenges/year2/numbers-and-counting/NumbersAndCountingChallenge4.jsx:8-9 | n numbers, the i-th being start + i × step |

## Left out

- Browser and network input and output are parameters or absent:
  - local storage reads and writes are a `Stored` value: missing, `null`, a record, or unparsable text;
  - the country fetch is its parsed records;
  - the city list and the GeoJSON are parameters;
  - the dynamic import of a challenge module, router navigation and console logging are not modelled.
- Timers are the methods a timeout or interval would call (`Advance`, `Next`, `TurnBack`, `ClearFeedback`, `Tick`, `Expire`). The model does not capture:
  - their delays;
  - their cancellation on unmount;
  - how they interleave with clicks. One example is a bubble's removal timer firing after a click has already freed and reused its lane in the sight-word game.
- The random-comparator sorts (`sort(() => Math.random() - 0.5)`) are modelled as arbitrary permutations. How likely each order is is not modelled, and neither is the Fisher–Yates distribution.
- Card ids are positions in the dealt list, not `${value}-${Math.random()}` strings. Only their distinctness matters to the games.
- Floating point is not modelled:
  - the sight-word bubble jitter, the width clamp and `createdAt`;
  - the map's Leaflet rendering;
  - city coordinates, which are carried but never used.
- Rendering, drag-and-drop library details, React keys, CSS classes (apart from the flag buttons' colours and the sentence chips) and the theme context are not modelled.
- SightWordPop.Pop.Spawn: the line that turns a target off once all targets are shown (SightWordPop.jsx:95) cannot fire, because the guard at line 84 already returns. The model leaves it out.
- MathPractice.AnswerComputes: the `default` branch of the operation switch is left out. The operation is a datatype of the four menu values.
- MapNames.Decompose: canonical decomposition covers the Latin-1 accented letters only. Other characters are kept as they are, and case mapping beyond Latin-1 is the identity.
- Js.ToLowerChar / Js.ToUpperChar / KebabCase.ToKebabCase / ChallengeLoader.CapWord: case mapping is the one-to-one mapping of ASCII and Latin-1 letters only. JavaScript upper-cases 'ß' to "SS", 'ÿ' to 'Ÿ' and 'µ' to 'Μ', so there a word starting with 'ß' grows by one character; the model keeps these three characters, which is why CapWord keeps the length. Lower-casing beyond Latin-1 (the Kelvin sign U+212A, 'İ') is the identity in the model.
- Js.NumberValue: `Number` is modelled for optional sign, digits and surrounding white space, and `undefined` is not a number. Exponents, hexadecimal, `Infinity` and fractions are not modelled.
- Loops that draw until they succeed take a finite sequence of draws. "Never finishes" is stated as "finishes for no sequence of draws". This applies to:
  - FlagFinder.PickLoop;
  - Distractors.CollectLoop;
  - CountingBack.GenerateSequence.
- FlagFinder.Finder.Load: the page sets the countries, then calls the generator. With no usable record that call fails inside the promise chain, so the page stays on "Loading flags...". The model keeps no question in that case. With fewer than four distinct names the loop never finishes, so Load requires draws that finish it (FlagFinder.EndsIff says when they exist).
- CitySpotlight: only picture mode's answer buttons call the selection handler, so Spotlight.Select requires picture mode. In map mode nothing selects, a round never advances, and the model does not add a handler the page lacks.
- SightWordPop.Pop.SetDuration: accepts any whole number of seconds from 20 to 90; the slider's step of 5 is not required.
- MathPractice.GenerateQuestion and FindTheMissingNumber.GeneratePattern use the corrected distractor loops (see Findings). The loops as written are kept beside them.

## Findings

| source | as written | input that shows it | evidently intended | confidence | as-written member | corrected member |
|---|---|---|---|---|---|---|
| src/pages/MathPractice.jsx:47-54 | wrong answers are drawn from answer − 5 .. answer + 4 and kept only when non-negative, so an answer of −3 or less never gets three and the loop never ends | subtraction with two operands drawing 1 and 4: the answer is −3, and only 0 and 1 can pass | three wrong answers always exist: the non-negative test stays for answers of −2 and above, and below that every candidate is allowed | not executed | MathPractice.SubtractionCanHang | MathPractice.CorrectedCanEnd |
| src/pages/skills/math/FindTheMissingNumber.jsx:22-29 | wrong options are drawn from answer − 2 .. answer + 2 and kept only when positive, so a hidden 1 leaves only 2 and 3 and the loop never ends | the default skip 2 with start 1 and the first position hidden: the hidden number is 1 | three wrong options always exist: the positive test stays for hidden numbers of 2 and above, and for a hidden 1 the option 0 is allowed, as the arithmetic quiz allows it | not executed | FindTheMissingNumber.FirstQuestionCanHang | FindTheMissingNumber.CorrectedCanEnd |
