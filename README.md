# Interview answer scorer — a Dafny model

This project models the two deterministic services of an interview-practice
application.

- **The heuristic evaluator** (`src/services/aiEvaluator.ts`) scores a written answer to an interview question.
  - It starts from 60.
  - It adds fixed bonuses for length, list-like structure, the word "ejemplo", STAR keywords in behavioural answers and efficient use of the time limit.
  - It clamps the result to [0, 100].
  - From the score it builds category-specific feedback: strengths, improvements, suggestions and a prose summary.
  - It scores each evaluation criterion of the question, with a random component.
  - A separate function turns a user's average score and time into a list of tips.
- **The knowledge lookup** (`src/services/ragService.ts`) is an object holding two records of string lists keyed by interview category: knowledge sentences and interview tips.
  - `getRelevantContext` keeps the category's sentences that include a word of the question title.
  - It joins at most eight parts of context and reports one of two confidence values.
  - `addKnowledge` appends a sentence to a category.
  - `getKnowledgeStats` counts the sentences of each category.

The project has three modules.

- `Text` (`text.dfy`) models the JavaScript string operations the services rely on:
  - `includes`, as a substring predicate;
  - `toLowerCase`;
  - `split` on one character, and `join`;
  - `trim();split(/\s+/).length`, the word count.
- `Evaluator` (`evaluator.dfy`) models `aiEvaluator.ts` in its own imperative form.
  - The score is built step by step in `ScoreAnswer`, which `EvaluateAnswer` calls.
  - The feedback lists are built by pushes in `CategoryFeedback` and its per-branch methods.
  - The criteria map is filled by a loop in `CriteriaScores`.
  - The tips are pushed in `PersonalizedTips`.
  - Each method is proved against rule predicates. The rules say which entries appear, exactly when, and that they appear in the order the source pushes them. `Evaluator.FeedbackDetermined` proves that the rules leave exactly one set of lists for each answer and score.
- `Rag` (`rag.dfy`) models `ragService.ts`.
  - The context lookup is a pure function.
  - The service is a class with the two maps as fields.
  - `AddKnowledge` updates the knowledge base in place.
  - `GetKnowledgeStats` fills its result in a loop.

The feedback and tip sentences are modelled as datatype constructors, one per sentence of the source. The prose summary is modelled as a triple: which category template, which of the three score words, and which closing sentence. The built-in knowledge sentences and tips are carried over as string constants.

Every score is at least 60, because the base is 60 and no step subtracts; `Evaluator.RawScoreBounds` proves it.

## Model

| member | source | states |
|---|---|---|
| Text.Contains | src/services/aiEvaluator.ts:9 | `includes` as a recursive test: the needle is a prefix of the haystack or of one of its tails (characterised by `Text.ContainsAtOffset`) |
| Text.IsSpace | src/services/aiEvaluator.ts:8 | the whitespace set of `\s` and `trim()`: tab, line feed, vertical tab, form feed, carriage return, space, no-break space, the Unicode space separators, the line and paragraph separators and the byte-order mark |
| Text.ContainsAtOffset | src/services/aiEvaluator.ts:9-13 | the recursive substring test holds exactly when the needle occurs at some offset of the haystack |
| Text.ContainsEmpty | src/services/ragService.ts:100-101 | every string includes the empty string |
| Text.ContainsSuffix | src/services/aiEvaluator.ts:10 | a string that includes `u + v` also includes `v` |
| Text.TooShortToContain | src/services/aiEvaluator.ts:9 | a string never includes a longer one |
| Text.IsCapital | src/services/aiEvaluator.ts:10 | the capitals `toLowerCase` is modelled on: A to Z and the Latin-1 capitals U+00C0 to U+00DE other than the multiplication sign |
| Text.LowerChar | src/services/aiEvaluator.ts:10 | one character lower-cased: a capital moves up by 0x20, every other character stays |
| Text.Lower | src/services/aiEvaluator.ts:10 | `toLowerCase` keeps the length and acts on each character on its own |
| Text.LowerCharFacts | src/services/aiEvaluator.ts:10 | a character that is not a capital is unchanged, and no lowered character is a capital |
| Text.LowerFixesLowerCase | src/services/aiEvaluator.ts:10-13 | a string without capitals is its own lower-case form |
| Text.LowerIdempotent | src/services/aiEvaluator.ts:10-13 | lower-casing twice is lower-casing once |
| Text.LowerConcat | src/services/aiEvaluator.ts:10-13 | lower-casing a concatenation lower-cases each part |
| Text.LowerKeepsContains | src/services/aiEvaluator.ts:10-13 | when a string includes another, its lower-case form includes the other's lower-case form |
| Text.IndexOf | src/services/ragService.ts:99 | the first position of the separator, or the length when it is absent; no earlier separator |
| Text.SplitOn | src/services/ragService.ts:99 | `split(' ')` always yields at least one piece |
| Text.SplitOnPiecesFree | src/services/ragService.ts:99 | no piece of a split contains the separator |
| Text.JoinSplitOn | src/services/ragService.ts:99 | joining the pieces of a split with the same separator gives the string back |
| Text.Join | src/services/ragService.ts:113 | `join('\n')`: the pieces with one separator between neighbours (inverted by `Text.SplitOnJoin`) |
| Text.SplitOnJoin | src/services/ragService.ts:112 | splitting a join of separator-free pieces gives the pieces back |
| Text.AdjacentSeparatorsGiveEmptyPiece | src/services/ragService.ts:99 | two consecutive separators produce an empty piece |
| Text.SplitOnEmpty | src/services/ragService.ts:99 | splitting the empty string gives one empty piece |
| Text.FirstPiece | src/services/aiEvaluator.ts:160 | `split(' ')[0]`: a prefix free of the separator, ending at the first separator or at the end of the string |
| Text.SplitSpaces | src/services/aiEvaluator.ts:8 | `split(/\s+/)` always yields at least one field |
| Text.WordCountIsWords | src/services/aiEvaluator.ts:8 | the word count equals the number of whitespace-separated words, and 1 when there are none |
| Text.Trim | src/services/aiEvaluator.ts:8 | `trim()` never lengthens the string, and gives the empty string exactly when the string is all whitespace |
| Text.WordCount | src/services/aiEvaluator.ts:8 | the word count is never zero, even for an empty or all-whitespace answer |
| Evaluator.KindOf | src/services/aiEvaluator.ts:60 | the `switch (category)`: "technical", "behavioral", "teamwork" and "leadership" pick their branches by exact string equality, and every other string picks the default branch |
| Evaluator.HasStructure | src/services/aiEvaluator.ts:9 | the structure feature: the raw answer includes "1.", "-" or "•" |
| Evaluator.HasExamples | src/services/aiEvaluator.ts:10 | the examples feature: the lower-cased answer includes "ejemplo" or "por ejemplo" (reduced to "ejemplo" by `Evaluator.HasExamplesIsEjemplo`) |
| Evaluator.MentionsStar | src/services/aiEvaluator.ts:11-13 | one of "situación", "tarea", "acción", "resultado" in the lower-cased answer; the category test is `UsesStar` |
| Evaluator.UsesStar | src/services/aiEvaluator.ts:11-13 | the STAR bonus test: the category is exactly "behavioral" and a STAR word occurs in the lower-cased answer |
| Evaluator.TimeEfficiency | src/services/aiEvaluator.ts:33 | `Math.min(100, timeSpent / (timeLimit * 60) * 100)` in exact arithmetic, for a non-zero limit |
| Evaluator.EfficientTime | src/services/aiEvaluator.ts:33-34 | the time test as a cross-multiplication; `Evaluator.TimeBonusMatchesRatio` proves it equal to the percentage test |
| Evaluator.LengthBonus | src/services/aiEvaluator.ts:19-21 | 15, 10 or 5 points above 150, 100 and 50 words, else none (bounds and monotonicity in `Evaluator.LengthBonusMonotone`) |
| Evaluator.RawScore | src/services/aiEvaluator.ts:16-34 | base 60 plus each bonus when its feature holds (bounds in `Evaluator.RawScoreBounds`) |
| Evaluator.Clamp | src/services/aiEvaluator.ts:36 | `Math.min(100, Math.max(0, baseScore))`: the total limited to [0, 100] |
| Evaluator.LengthBonusMonotone | src/services/aiEvaluator.ts:19-21 | the length bonus lies in [0, 15] and never decreases as the word count grows |
| Evaluator.RawScoreBounds | src/services/aiEvaluator.ts:16-36 | the unclamped total lies in [60, 115]; the clamped score lies in [60, 100], equals the total up to 100 and is exactly 100 above it |
| Evaluator.StarBonusOnlyForBehavioral | src/services/aiEvaluator.ts:11-13 | for any other category the total is at most 100; as a behavioural question the same answer earns exactly 15 more when one of the four STAR words occurs in it lower-cased, and nothing more otherwise |
| Evaluator.HasExamplesIsEjemplo | src/services/aiEvaluator.ts:10 | the examples feature holds exactly when the lower-cased answer includes "ejemplo" |
| Evaluator.KeywordsAreLowerCase | src/services/aiEvaluator.ts:10-13 | the lower-case keywords the evaluator searches for are fixed by lower-casing |
| Evaluator.LowerCasedFeaturesIgnoreCase | src/services/aiEvaluator.ts:10-13 | two answers with the same lower-case form agree on the examples feature, the STAR feature, the behavioural branch's STAR test and every criterion mention |
| Evaluator.TechnicalExamplesAreCaseSensitive | src/services/aiEvaluator.ts:10 | "Ejemplo" earns the examples bonus but not the technical branch's examples strength, which tests the raw answer |
| Evaluator.TimeBonusMatchesRatio | src/services/aiEvaluator.ts:33-34 | the integer time test holds exactly when the limit is non-zero and the efficiency percentage is strictly between 50 and 90 |
| Evaluator.PercentCompare | src/services/aiEvaluator.ts:33-34 | a comparison with `ts / t * 100` is the cross-multiplied comparison, turned round for a negative `t` |
| Evaluator.TechnicalExamples | src/services/aiEvaluator.ts:62 | the technical strength test: the raw answer includes "ejemplo" or "código" |
| Evaluator.BehavioralStar | src/services/aiEvaluator.ts:77 | the behavioural branch's STAR test: the lower-cased answer includes "situación" or "tarea" (two of the four scoring words) |
| Evaluator.ShowsLearning | src/services/aiEvaluator.ts:81 | the reflection test: the raw answer includes "aprendí" or "resultado" |
| Evaluator.MentionsCollaboration | src/services/aiEvaluator.ts:96 | the collaboration test: the raw answer includes "colabor" or "equipo" |
| Evaluator.MentionsConflict | src/services/aiEvaluator.ts:99 | the conflict test: the raw answer includes "conflicto" or "desacuerdo" |
| Evaluator.MentionsLeading | src/services/aiEvaluator.ts:111 | the leadership test: the raw answer includes "lider" or "guiar" |
| Evaluator.MentionsInfluence | src/services/aiEvaluator.ts:114 | the influence test: the raw answer includes "influencia" or "motivar" |
| Evaluator.BandStrength | src/services/aiEvaluator.ts:135-141 | the score-band strength: "exceptional" from 90, "solid" from 80, "adequate" from 70, none below |
| Evaluator.LevelOf | src/services/aiEvaluator.ts:73-131 | the score word of each of the five summary templates (lines 73, 92, 107, 122 and 131): the excellent word above 80, the good word above 60, the basic word otherwise |
| Evaluator.DetailRules | src/services/aiEvaluator.ts:73-131 | the summary: the category's template, the score word of `LevelOf`, and the closing sentence, which turns on a score above 80 (technical), the behavioural STAR test, a score above 70 (teamwork, leadership) or is absent (default) |
| Evaluator.EvaluateAnswer | src/services/aiEvaluator.ts:4-49 | the score is the clamped sum of the bonuses and lies in [60, 100]; the feedback meets the feedback rules for that score; the criteria scores meet the criteria rules |
| Evaluator.ScoreAnswer | src/services/aiEvaluator.ts:8-36 | the score built step by step is the clamped sum of the bonuses and lies in [60, 100] |
| Evaluator.CategoryFeedback | src/services/aiEvaluator.ts:51-149 | the strengths, improvements, suggestions and summary meet the feedback rules: the branch's own entries exactly when their tests hold, in the order the source pushes them, then the score-band strength, then the short-answer advice |
| Evaluator.TechnicalBranch | src/services/aiEvaluator.ts:61-74 | the technical branch lists its strengths on the raw answer's "ejemplo"/"código" and more than 100 words, and its improvements and suggestion exactly when the score is below 70 |
| Evaluator.BehavioralBranch | src/services/aiEvaluator.ts:76-93 | the behavioural branch lists STAR praise exactly when the lower-cased answer has "situación" or "tarea", the STAR advice exactly when it has neither, and the reflection strength on "aprendí"/"resultado" |
| Evaluator.TeamworkBranch | src/services/aiEvaluator.ts:95-108 | the teamwork branch's entries follow "colabor"/"equipo", "conflicto"/"desacuerdo" and a score below 70; its closing sentence changes above 70 |
| Evaluator.LeadershipBranch | src/services/aiEvaluator.ts:110-123 | the leadership branch's entries follow "lider"/"guiar", "influencia"/"motivar" and a score below 70; its closing sentence changes above 70 |
| Evaluator.DefaultBranch | src/services/aiEvaluator.ts:125-131 | any other category lists the coherence strength, plus its improvement and suggestion exactly when the score is below 70 |
| Evaluator.BandStrengthFacts | src/services/aiEvaluator.ts:135-141 | exactly one band strength, listed last, exactly when the score is at least 70; the exceptional one exactly from 90, the solid one in [80, 90), the adequate one in [70, 80); no strength twice |
| Evaluator.BandStrengthAppended | src/services/aiEvaluator.ts:135-141 | pushing the band strength onto a branch's strengths meets the strength rules |
| Evaluator.ShortAnswerAdviceFacts | src/services/aiEvaluator.ts:143-146 | an answer of fewer than 50 words ends its improvements and its suggestions with the short-answer advice; otherwise, and at any earlier position, that advice is absent |
| Evaluator.ShortAnswerAdviceAppended | src/services/aiEvaluator.ts:143-146 | pushing the short-answer advice after a branch's entries meets the improvement and suggestion rules |
| Evaluator.StrengthsAreListed | src/services/aiEvaluator.ts:60-141 | under the strength rules a strength is listed exactly when the decision table `StrengthListed` says so: its category is the question's and its test holds, or it is the band strength for the score |
| Evaluator.StrengthListedIff | src/services/aiEvaluator.ts:60-141 | the same, for one given strength |
| Evaluator.StrengthsListedInOrder | src/services/aiEvaluator.ts:60-141 | under the strength rules the strengths appear in push order |
| Evaluator.ImprovementsAreListed | src/services/aiEvaluator.ts:60-146 | under the improvement rules an improvement is listed exactly when `ImprovementListed` says so: its category is the question's and its test holds, or it is the short-answer advice and the answer has fewer than 50 words |
| Evaluator.ImprovementListedIff | src/services/aiEvaluator.ts:60-146 | the same, for one given improvement |
| Evaluator.ImprovementsListedInOrder | src/services/aiEvaluator.ts:60-146 | under the improvement rules the improvements appear in push order |
| Evaluator.SuggestionsAreListed | src/services/aiEvaluator.ts:60-146 | under the suggestion rules a suggestion is listed exactly when `SuggestionListed` says so |
| Evaluator.SuggestionListedIff | src/services/aiEvaluator.ts:60-146 | the same, for one given suggestion |
| Evaluator.SuggestionsListedInOrder | src/services/aiEvaluator.ts:60-146 | under the suggestion rules the suggestions appear in push order |
| Evaluator.SameElementsSameOrder | src/services/aiEvaluator.ts:51-149 | the step of `Evaluator.FeedbackDetermined` that turns equal membership into equal lists: two lists strictly ordered by the same rank and holding the same elements are equal |
| Evaluator.FeedbackDetermined | src/services/aiEvaluator.ts:51-149 | two feedbacks that both meet the feedback rules for the same category, answer and score have the same strengths, improvements, suggestions and summary |
| Evaluator.CriteriaOf | src/services/aiEvaluator.ts:152 | the question's criteria, or none when the field is missing |
| Evaluator.ValidDraws | src/services/aiEvaluator.ts:157 | one `Math.random()` draw per criterion, each in [0, 1) |
| Evaluator.MentionsCriterion | src/services/aiEvaluator.ts:160 | the lower-cased answer includes the first space-separated word of the lower-cased criterion |
| Evaluator.Round | src/services/aiEvaluator.ts:164 | `Math.round` gives the integer within half a unit, halves rounded up |
| Evaluator.CriterionScore | src/services/aiEvaluator.ts:157-164 | a criterion's score is an integer in [60, 100]; at least 70 when the answer includes the criterion's first word, at most 90 when it does not |
| Evaluator.CriteriaScores | src/services/aiEvaluator.ts:151-168 | the map's keys are exactly the criterion labels; every value is in [60, 100]; a label listed twice holds the score of its last occurrence |
| Evaluator.BlankFirstWordAlwaysMentioned | src/services/aiEvaluator.ts:160 | a criterion that is empty or starts with a space has an empty first word, so it always earns the 10-point bonus |
| Evaluator.PersonalizedTips | src/services/aiEvaluator.ts:171-187 | the two practice tips exactly when the average score is below 70; the concision tip exactly when the average time exceeds 600; the STAR and research tips always, last; the practice tips come first, in push order, and the concision tip third from the end; the length follows; no tip twice |
| Rag.Confidence.Value | src/services/ragService.ts:115 | the reported confidence: 0.8 when some sentence is kept, 0.6 otherwise |
| Rag.Sources | src/services/ragService.ts:114 | the two fixed source labels, "Knowledge Base" and "Interview Best Practices" |
| Rag.Lookup | src/services/ragService.ts:94-96 | a record read with an empty-list default: the key's list, or the empty list when the key is absent |
| Rag.Keywords | src/services/ragService.ts:99 | the lower-cased title split on spaces: at least one keyword |
| Rag.MatchesAny | src/services/ragService.ts:100-101 | some keyword occurs in the sentence's lower-cased text |
| Rag.Relevant | src/services/ragService.ts:100-102 | the filter keeps no more sentences than it is given (membership, order and multiplicity in the lemmas below) |
| Rag.Take | src/services/ragService.ts:106-109 | `slice(0, n)` has the smaller of `n` and the length as its length, and is a prefix of the list |
| Rag.RelevantIsSubsequence | src/services/ragService.ts:99-102 | the kept sentences are a subsequence of the category's list, in its order |
| Rag.RelevantMembers | src/services/ragService.ts:99-102 | a sentence is kept exactly when it is in the category's list and its lower-cased text includes one of the title's keywords |
| Rag.EmptyKeywordKeepsAll | src/services/ragService.ts:99-102 | an empty keyword keeps every sentence |
| Rag.BlankKeywordTitles | src/services/ragService.ts:99-102 | an empty title, or one with two consecutive spaces, yields an empty keyword, and so every sentence is kept |
| Rag.RelevantCounts | src/services/ragService.ts:100-102 | a matching sentence is kept as many times as it occurs in the category's list; a non-matching one not at all |
| Rag.RelevantNonEmpty | src/services/ragService.ts:99-102 | some sentence is kept exactly when some sentence of the category matches a keyword |
| Rag.ContextParts | src/services/ragService.ts:105-110 | the spread of the four slices: at most eight parts |
| Rag.ContextFor | src/services/ragService.ts:93-117 | the sources are always the same two labels; the confidence is high exactly when some category sentence matches a keyword |
| Rag.ContextPartsLayout | src/services/ragService.ts:105-110 | at most eight parts: up to 3 matches, then up to 2 category sentences, up to 2 category tips and up to 1 general tip, each block the start of its list |
| Rag.ContextLines | src/services/ragService.ts:105-112 | when no sentence contains a line break, splitting the context on line breaks gives back its parts |
| Rag.UnknownCategoryGetsGeneralTip | src/services/ragService.ts:94-110 | a category absent from both records gets only the first general tip, with the low confidence |
| Rag.StatsOf | src/services/ragService.ts:128-134 | the statistics have exactly the categories as keys, each valued at its list's length |
| Rag.StatsAfterAdd | src/services/ragService.ts:120-134 | after a sentence is added, that category's count is one more (1 for a new category) and every other count is the same |
| Rag.RagService.constructor | src/services/ragService.ts:9-91 | a new service holds the built-in knowledge base and tips |
| Rag.RagService.GetRelevantContext | src/services/ragService.ts:93-117 | on the service's current records: the same two sources, and the high confidence exactly when some sentence of the category matches a keyword of the title |
| Rag.RagService.AddKnowledge | src/services/ragService.ts:120-125 | the sentence is appended to the category's list, which is created when missing; every other category and the tips are unchanged |
| Rag.RagService.GetKnowledgeStats | src/services/ragService.ts:128-134 | the result is the statistics of the current knowledge base |
| Rag.DefaultStats | src/services/ragService.ts:9-67 | the built-in knowledge base has eight categories: six technical sentences and five in each of the others |
| Rag.DefaultUnknownCategory | src/services/ragService.ts:69-117 | with the built-in data, any category other than the built-in ones gets the first general tip alone |

## Left out

- `src/services/ollamaService.ts` is not part of this model. It is HTTP calls to a local language-model server, JSON decoding and logging.
- The two-second delay and the `async`/`Promise` plumbing of `evaluateAnswer` are left out; they are scheduling, not scoring.
- `Math.random()` is not modelled as a source. Each criterion takes one draw in [0, 1) from the `draws` parameter of `EvaluateAnswer` and `CriteriaScores`.
- The model uses exact arithmetic, not floating point. `Math.round` is taken as rounding halves up, which is what it does for the non-negative values here. The time ratio is an integer cross-multiplication with `timeSpent` and `timeLimit` as integers.
- A zero time limit makes the JavaScript ratio infinite or NaN. Both earn no bonus, and the model gives none.
- The feedback, tip and summary texts are tags, not Spanish sentences. The template formatting of `detailedFeedback` is not modelled.
- Strings are sequences of Unicode scalar values. JavaScript strings are sequences of UTF-16 code units, so a lone surrogate is not representable, and a character outside the Basic Multilingual Plane is one element here but two units there.
- `Text.Lower`: does not model full Unicode `toLowerCase`; it lowers ASCII and Latin-1 capitals, which covers every keyword and sentence in the source.
- The `userProgress: any` argument of `generatePersonalizedTips` is reduced to the two statistics it reads.
- The question's title, description and difficulty are not modelled; the evaluator does not read them. The loose `category` string is kept as a string.
- JavaScript records inherit keys such as `constructor` from `Object.prototype`, and the model treats a record as a plain map. So it misses two effects. A read such as `record[category] || []` can find a non-list. A write such as `scores[criterion] = ...` with the label `__proto__` calls the inherited setter and creates no key. For that label `Evaluator.CriteriaScores` promises a key that JavaScript would not create.
- The exported singleton `ragService` instance is not modelled; `Rag.RagService.constructor` builds an equivalent object.
- `Rag.RagService.GetKnowledgeStats`: the order of the result's keys is not modelled; a map has none.
