# Three-Eyed-Coders core, modelled in Dafny

Three-Eyed-Coders is a portfolio with two parts. The first is a React front end that matches
a developer's skills to open-source projects and consultants. The second is a collection of
small Python machine-learning projects. This Dafny project models the logic both parts
depend on and proves properties of that logic.

JavaScript services and components:

- `consultant_service.dfy` models the consultant matcher.
  - It has a fixed database and a skill-category table.
  - The search runs seven successive filters (skills, budget, availability, location or remote, project type, experience, rating).
  - Each consultant gets a 100-point match score.
  - Results are ranked by a stable descending sort.
  - Each result also carries insights: matched and additional skills, a budget fit, strength areas and a drawn tip.
  - Consultants can be looked up by id, and skills are suggested from the category table.
- `github_service.dfy` models the project recommender.
  - It builds the search queries and keeps a repository only if it passes the quality filter.
  - It derives technologies, difficulty, time estimate, category, features and maintainer reputation.
  - It computes the 100-point AI match score and the AI insights.
  - It de-duplicates by id, ranks the results and keeps the top twelve.
- `code_analysis.dfy` models the static code analyser: security and performance scores, the overall grade, the JavaScript issue finder, line numbers, complexity estimates, duplicate-line counting, the maintainability score and suggestions, and the severity tables.
- `project_matcher.dfy` models the matcher screen.
  - The screen's state is a class: favourite sets, search filters and the active tab.
  - It includes the older in-component match score and the difficulty colours.
- `ai_assistant.dfy` models the assistant chat: its keyword-driven responses, the conversation history and the severity colours.
- `login.dfy` models the login form: form data, validation and submission against the demo credentials.

Python projects:

- `grid_world.dfy` models the grid-world environment: goal and obstacle defaults, moves, rewards and the environment object.
- `q_learning.dfy` models the tabular Q-learning agent.
  - Q-table initialisation, get/set, the update rule and epsilon-greedy action choice.
  - The greedy policy, one training episode and epsilon decay over training.
- `tune_hyperparameters.dfy` models the grid search over learning rate, discount factor and epsilon decay, and the choice of the best combination.
- `text_generation.dfy` models the character-level text generator: vocabulary and index maps, the encoding of the training sequences, seed normalisation and the generation loop.
- `sentiment.dfy` models the rule-based and the learned sentiment analysers.
- `train_models.dfy` models the text preprocessing of the training script, the model file names and the choice of the best model.

Shared modules:

- `wrappers.dfy`: `Option` and `Result`.
- `text.dfy`: ASCII case folding, substring search, white space and trimming, split and join.
- `lists.dfy`: filter, count, map and flatten.
- `ranking.dfy`: the stable descending sort, `slice` and the first-maximum pick.
- `numbers.dfy`: `Math.round`, min and max, and ratios.
- `chip.dfy`: the colour names used by the UI chips.

Parts that depend on the outside world are inputs to the model.

- `fetch` is a function parameter.
- The current date is an integer.
- `Math.random` and `random` choices are index parameters or nondeterministic choices.
- Trained classifiers are function parameters.
- `Math.log10(stars + 1)` is a real parameter.

Numbers are unbounded integers or exact reals.

## Model

| member | source | states |
|---|---|---|
| ConsultantService.DatabaseWellFormed | frontend/src/services/consultantService.js:17-278 | The consultant records have pairwise distinct ids, non-negative hourly rates and ratings between 0 and 5 |
| ConsultantService.PassesAllStages | frontend/src/services/consultantService.js:316-365 | Passing the seven filter stages one after another is the same as passing every active filter at once |
| ConsultantService.Step | frontend/src/services/consultantService.js:316-365 | An active filter keeps only consultants that pass its test; a filter whose criterion is falsy leaves the list unchanged |
| ConsultantService.NarrowedFilters | frontend/src/services/consultantService.js:313-365 | Narrowing the database by the first n stages equals filtering it once by the conjunction of those stages |
| ConsultantService.Matching | frontend/src/services/consultantService.js:313-365 | Every consultant kept comes from the database and passes all active filters, and every database consultant that passes them is kept |
| ConsultantService.NarrowedAll | frontend/src/services/consultantService.js:313-365 | Running all seven stages gives exactly the matching consultants |
| ConsultantService.MatchedCount | frontend/src/services/consultantService.js:392-398 | The number of requested skills the consultant has is at most the number requested; it equals that number iff all match and is zero iff none match |
| ConsultantService.SkillPart | frontend/src/services/consultantService.js:391-402 | The skill part is 40 times the share of requested skills the consultant has (40 when none are requested), so it lies in 0..40; it is 40 iff every requested skill matches and 0 iff skills were requested and none matches |
| ConsultantService.BudgetPart | frontend/src/services/consultantService.js:404-414 | 25 when no budget is given or the rate is within it; for a budget below the rate, 25 times budget over rate (so part times rate is 25 times the budget), and 0 for a negative budget; never negative, at most 25 for a non-negative rate |
| ConsultantService.AvailabilityPart | frontend/src/services/consultantService.js:417-421 | The availability part is 20 or 5, and 5 exactly when availability is required and the consultant is not available |
| ConsultantService.ReputationPart | frontend/src/services/consultantService.js:424-425 | The reputation part is non-negative for a non-negative rating and at most 15 for a rating up to 5 |
| ConsultantService.MatchScore | frontend/src/services/consultantService.js:386-428 | The rounded match score is at most 100, and not negative for a non-negative rating |
| ConsultantService.NoPreferenceFullCredit | frontend/src/services/consultantService.js:386-421 | With no skills, no budget and no availability requirement the first three parts give the full 85 points |
| ConsultantService.PerfectConsultantScores100 | frontend/src/services/consultantService.js:386-428 | An available consultant who has every requested skill, fits the budget and has a 5.0 rating with at least 50 reviews scores exactly 100 |
| ConsultantService.MatchedSkills | frontend/src/services/consultantService.js:436-440 | Exactly the requested skills that some consultant skill contains, ignoring case, are reported as matched, in request order and with repeats kept: entry k is the request at the k-th matching position |
| Lists.FilterPositions | frontend/src/services/consultantService.js:436-440 | `filter` lists the elements at the positions that pass the test, in increasing position order, one entry per position |
| ConsultantService.AdditionalSkills | frontend/src/services/consultantService.js:442-446 | The first min(3, k) of the consultant's skills that contain none of the requested skills, where k is how many such skills there are, in the consultant's order |
| ConsultantService.MatchReasonFor | frontend/src/services/consultantService.js:448-455 | A perfect skill match iff skills were requested and all matched, carrying the name and the matched skills; a strong match iff some but not all matched, carrying the matched skills and the requested count; complementary skills iff none matched |
| ConsultantService.BudgetFitFor | frontend/src/services/consultantService.js:457-459 | No budget specified iff no budget is given; within budget iff the rate is at most the budget; otherwise over budget by the positive difference |
| ConsultantService.RecommendationTips | frontend/src/services/consultantService.js:474-484 | Five tips, led by the availability tip, iff the availability text contains "Available", otherwise four; the last four are, in order, the industries, the lower-cased work preference, the location and the first specialisation (or none) |
| ConsultantService.RecommendationTip | frontend/src/services/consultantService.js:474-487 | The randomly drawn tip is one of the candidate tips |
| ConsultantService.ConsultantInsights | frontend/src/services/consultantService.js:433-469 | The match reason, budget fit and additional skills are those computed for the consultant and the criteria; the strength areas are the first min(3, n) specialisations; experience and rating are the consultant's; the tip is the drawn candidate tip |
| ConsultantService.Enhance | frontend/src/services/consultantService.js:368-372 | One entry per filtered consultant, in order, each scored with its match score and carrying the insights computed for it, the criteria and its tip draw |
| ConsultantService.SearchTiesKeepDatabaseOrder | frontend/src/services/consultantService.js:375 | The sort by score is stable: consultants with equal scores keep their database order |
| ConsultantService.SearchComplete | frontend/src/services/consultantService.js:313-375 | Every database consultant passing all active filters appears in the ranked results |
| ConsultantService.FindById | frontend/src/services/consultantService.js:493 | Nothing iff no consultant has the id; otherwise a consultant with that id |
| ConsultantService.AllSkills | frontend/src/services/consultantService.js:504 | The category skill lists one after another: every category skill and nothing else, the first category's list as a prefix and, for one category, exactly its list |
| ConsultantService.AllSkillsAppend | frontend/src/services/consultantService.js:504 | Flattening the tables of two groups of categories one after the other is concatenating their flattened skills |
| ConsultantService.ConsultantMatcher.constructor | frontend/src/services/consultantService.js:15-291 | The matcher starts with the consultant database and the skill-category table |
| ConsultantService.ConsultantMatcher.FilterDatabase | frontend/src/services/consultantService.js:313-365 | The seven successive reassignments of the result list leave exactly the matching consultants |
| ConsultantService.ConsultantMatcher.ApplyFilter | frontend/src/services/consultantService.js:316-365 | One stage of the filter chain; it never lengthens the list |
| ConsultantService.ConsultantMatcher.SearchConsultants | frontend/src/services/consultantService.js:298-381 | The results are the matching consultants with their scores, sorted by non-increasing score; they are a permutation of the scored matches, each result passes every active filter, and each carries its own match reason, budget fit, additional skills, first three specialisations, experience, rating and one of its candidate tips |
| ConsultantService.ConsultantMatcher.GetConsultantById | frontend/src/services/consultantService.js:492-498 | A database consultant with the id, or the error "Consultant not found" exactly when none has it |
| ConsultantService.ConsultantMatcher.SkillSuggestions | frontend/src/services/consultantService.js:503-510 | At most ten category skills, each containing the query ignoring case, forming a prefix of all such skills in table order (for the empty query every skill matches, so this is the first ten skills) |
| ConsultantService.ConsultantMatcher.EmptyQueryShortCut | frontend/src/services/consultantService.js:504-505 | For the empty query, the shortcut of the first ten skills equals the filtered list, because every skill contains the empty string |
| ConsultantService.ConsultantMatcher.SuggestionCount | frontend/src/services/consultantService.js:503-510 | The number of suggestions is the smaller of ten and the number of matching skills |
| GitHub.GitHubService.constructor | frontend/src/services/githubService.js:15-76 | The service starts with the technology keyword table and the project categories |
| GitHub.LookupKeywords | frontend/src/services/githubService.js:120 | No keywords iff the skill has no entry in the table; otherwise the keywords of its entry |
| GitHub.GetLanguageForSkill | frontend/src/services/githubService.js:627-645 | A skill outside the language table searches for its own lower-cased name; no answer contains a capital letter |
| GitHub.SkillQueriesShape | frontend/src/services/githubService.js:119-137 | Each skill contributes two queries, the starred licensed one and then the recently active one, in skill order |
| GitHub.GitHubService.BuildSearchQueries | frontend/src/services/githubService.js:115-192 | The queries for the first three skills, then the trending, highly starred and experience queries, then one query for a category drawn from the eight top categories |
| GitHub.KeepRepoIff | frontend/src/services/githubService.js:229-250 | A repository is kept iff it has at least the level's minimum of stars (50, 100 or 500), a listed licence and at least 5 forks, is not archived, and was updated within the last year |
| GitHub.ToProject | frontend/src/services/githubService.js:252-283 | The project keeps the repository's id, name, stars and forks; its description is never empty and is the repository's when that has one; at most six distinct technologies, all found for the repository, led by the language when there is one; a maintainer reputation in 3..5; the category is "General Development" or the first matching category |
| GitHub.ExecuteSearch | frontend/src/services/githubService.js:197-221 | A failed request gives no projects; a successful one gives one project per returned repository that passes the quality filter, each the project of such a repository |
| GitHub.TransformGitHubProjects | frontend/src/services/githubService.js:227-283 | One project per repository that passes the quality filter |
| GitHub.TransformMembers | frontend/src/services/githubService.js:227-283 | Every project comes from a kept repository, and every kept repository yields its project |
| GitHub.AddNew | frontend/src/services/githubService.js:296-317 | Adding a technology keeps the list free of repeats, adds at most one entry and never drops one |
| GitHub.FirstMentionCI | frontend/src/services/githubService.js:299-301 | The index of the first keyword-table entry that the topic mentions, ignoring case: no earlier entry is mentioned, and the table length when none is |
| GitHub.TopicTechnology | frontend/src/services/githubService.js:296-306 | None iff no keyword-table entry is mentioned by the topic; otherwise the key of the first entry, in table order, that the topic mentions |
| GitHub.AfterNames | frontend/src/services/githubService.js:296-306 | Taking the first n topic names in order, each added unless already present, keeps the list free of repeats and extends the earlier list |
| GitHub.AfterNamesSound | frontend/src/services/githubService.js:296-306 | Every entry after taking names was there before or is one of the names taken |
| GitHub.AfterNamesHas | frontend/src/services/githubService.js:296-306 | Every name among the first n is in the list after taking them |
| GitHub.AfterTopics | frontend/src/services/githubService.js:296-306 | Scanning the first n topics keeps the list free of repeats and extends the earlier list |
| GitHub.AfterTopicsSound | frontend/src/services/githubService.js:296-306 | Every entry after the topic scan was there before or is the technology named by one of the scanned topics |
| GitHub.AfterTopicsComplete | frontend/src/services/githubService.js:296-306 | Every technology named by a scanned topic is in the list after the scan |
| GitHub.GitHubService.ScanTopics | frontend/src/services/githubService.js:296-307 | The `forEach` over the topics, pushing each named technology not yet present, leaves the list of the topic scan |
| GitHub.AfterText | frontend/src/services/githubService.js:310-318 | Scanning the name and description for the first n table entries keeps the list free of repeats and extends the earlier list |
| GitHub.AfterTextMembers | frontend/src/services/githubService.js:310-318 | After the text scan the list holds exactly the earlier entries plus the key of every scanned entry the text mentions |
| GitHub.GitHubService.ScanText | frontend/src/services/githubService.js:309-318 | The `forEach` over the keyword table, pushing each key the lower-cased text mentions and not yet present, leaves the list of the text scan |
| GitHub.Technologies | frontend/src/services/githubService.js:288-320 | The technologies have no repeats, start with the primary language when there is one, and contain exactly the language, the technologies named by topics and the keys whose keywords the description or name mentions |
| GitHub.TopTechnologies | frontend/src/services/githubService.js:320 | The first six technologies still have no repeats and still start with the language |
| GitHub.GitHubService.ExtractTechnologies | frontend/src/services/githubService.js:288-321 | The first six of the technologies found by the language, topic and text scans: at most six, distinct, the primary language first |
| GitHub.DifficultyOf | frontend/src/services/githubService.js:326-342 | Beginner iff the capped complexity sum is below 5; advanced iff it is at least 12 |
| GitHub.DifficultyMonotone | frontend/src/services/githubService.js:326-342 | A repository with no fewer stars, forks, size and open issues is never rated easier |
| GitHub.EstimateProjectTime | frontend/src/services/githubService.js:347-355 | One to two weeks iff size is below 1000 and stars below 100; two to four weeks iff not that and size below 5000 and stars below 500; over two months iff size is at least 20000 or stars at least 2000 |
| GitHub.EstimateMonotone | frontend/src/services/githubService.js:347-355 | A repository with no smaller size and no fewer stars never gets a shorter estimate |
| GitHub.FirstCategory | frontend/src/services/githubService.js:379-385 | The first category in table order whose keywords the text mentions, or none iff no category is mentioned |
| GitHub.CategoryOf | frontend/src/services/githubService.js:360-388 | The fallback category when nothing matches; when some category matches, the answer is the name of the first matching one, and any answer other than the fallback is such a name |
| GitHub.CategorizeProject | frontend/src/services/githubService.js:360-388 | Over the lower-cased name, description and space-joined topics: "General Development" when no category keyword occurs; otherwise the first category, in table order, with a keyword in that text |
| GitHub.ExtractFeatures | frontend/src/services/githubService.js:393-404 | At most six distinct features, each present exactly when its repository flag holds |
| GitHub.MaintainerReputation | frontend/src/services/githubService.js:409-419 | The reputation is the base 3 plus the capped follower and repository boosts, rounded to one decimal; it lies between 3 and 5, is 5 for at least 150 followers and 25 repositories and 3 for none |
| GitHub.SkillScore | frontend/src/services/githubService.js:444-449 | The skill score is 35 times the share of technologies related to the user's skills, so it lies in 0..35; 35 iff there are technologies and all relate, 0 iff none does |
| GitHub.ExperienceScore | frontend/src/services/githubService.js:452-457 | The experience score is 20 when the levels agree, 14 when they are one apart and 8 when two apart |
| GitHub.QualityScore | frontend/src/services/githubService.js:460-479 | The quality score is at most 25 and non-negative for a non-negative star logarithm |
| GitHub.ContributionScore | frontend/src/services/githubService.js:482-493 | The contribution score lies in 0..20 |
| GitHub.AIMatchScore | frontend/src/services/githubService.js:440-496 | The rounded AI match score is at most 100 and non-negative for a non-negative star logarithm |
| GitHub.SkillsPartition | frontend/src/services/githubService.js:502-510 | Matched and new skills together are a permutation of the technologies; the matched ones relate to the user's skills and the new ones do not |
| GitHub.QualityIndicators | frontend/src/services/githubService.js:516-519 | Highly starred iff more than 1000 stars, actively forked iff more than 100 forks, community driven iff more than 10 open issues, properly licensed iff there is a licence; in that order, each at most once |
| GitHub.MatchReasonFor | frontend/src/services/githubService.js:521-529 | The reason band follows the score (80 and above, 60 to 79, 40 to 59, below 40); an excellent match carries all quality indicators and the matched skills, a strong match the first indicator if any and the matched skills |
| GitHub.StarBadge | frontend/src/services/githubService.js:558-560 | At most one popularity badge, pushed iff more than 100 stars: highly popular above 5000, well-regarded above 1000 up to 5000, community favourite above 100 up to 1000 |
| GitHub.ForkBadge | frontend/src/services/githubService.js:562-563 | At most one activity badge, pushed iff more than 50 forks: extensively forked above 500, forked often above 50 up to 500 |
| GitHub.IssueBadge | frontend/src/services/githubService.js:565-566 | At most one community badge, pushed iff more than 10 open issues: very active above 50, community engaged above 10 up to 50 |
| GitHub.LicenseBadge | frontend/src/services/githubService.js:568-570 | The licence badge iff the licence is present and not "No license" |
| GitHub.KeptBadges | frontend/src/services/githubService.js:572 | The first three badges are every popularity, activity and community badge, plus the licence badge unless all three of those were pushed |
| GitHub.AssessOpenSourceQuality | frontend/src/services/githubService.js:555-573 | At most three badges, each present exactly when its condition holds and the earlier badges leave room: popularity by stars, activity by forks, community by open issues, licence for a licensed project |
| GitHub.QualityBadgesOrdered | frontend/src/services/githubService.js:555-573 | The badges come in the order of their tests, group numbers strictly increasing: popularity, then activity, then community, then licence |
| GitHub.OpenIssuesTip | frontend/src/services/githubService.js:581-583 | The open-issues tip iff there are open issues |
| GitHub.DocumentationTip | frontend/src/services/githubService.js:584-586 | The documentation tip iff the features include documentation |
| GitHub.LanguageTip | frontend/src/services/githubService.js:587-589 | The language tip iff there is a language, carrying that language |
| GitHub.FirstIssuesTip | frontend/src/services/githubService.js:590-592 | The good-first-issue tip iff the topics include "good-first-issue" |
| GitHub.KeptTips | frontend/src/services/githubService.js:594 | After the cut to three: the open-issues, documentation and language tips exactly under their conditions, the language tip carrying the project's language, and the good-first-issue tip iff its topic is present and not all three others apply |
| GitHub.TipsOrdered | frontend/src/services/githubService.js:579-594 | The kept tips come in the order of their tests, ranks strictly increasing |
| GitHub.ContributionTips | frontend/src/services/githubService.js:578-595 | The open-issues, documentation and language tips appear exactly when there are open issues, documentation, a language (carrying it); the good-first-issue tip exactly when that topic is present and not all three others apply; at most three, with ranks strictly increasing in the order of the tests |
| GitHub.LearningOpportunities | frontend/src/services/githubService.js:507-510 | At most three technologies, each a project technology related to none of the user's skills; the first min(3, k) of those k technologies, in order |
| GitHub.GenerateAIInsights | frontend/src/services/githubService.js:501-550 | The reason, tips, badges and difficulty explanation are those computed for the project; the learning opportunities are the first min(3, k) technologies unrelated to the user's skills |
| GitHub.Enhance | frontend/src/services/githubService.js:424-435 | One entry per project, in order, scored with its AI match score and carrying the AI insights computed for it, the user's skills and that score |
| GitHub.ExplainDifficulty | frontend/src/services/githubService.js:600-608 | Every level gets a non-empty explanation |
| GitHub.DedupIds | frontend/src/services/githubService.js:613-622 | De-duplication leaves pairwise distinct ids and loses no id |
| GitHub.DedupFirst | frontend/src/services/githubService.js:613-622 | Each kept project is the first one in the input with its id |
| GitHub.DedupOrder | frontend/src/services/githubService.js:613-622 | Kept projects are in the order of the first occurrences of their ids |
| GitHub.DedupCorrect | frontend/src/services/githubService.js:613-622 | Distinct ids, the same set of ids, first occurrences kept, in input order |
| GitHub.GitHubService.RemoveDuplicates | frontend/src/services/githubService.js:613-622 | The seen-set loop returns the de-duplicated list: distinct ids and the same set of ids |
| GitHub.GitHubService.SearchProjects | frontend/src/services/githubService.js:85-104 | The queries are the built ones: two per skill for the first three skills, then the trending, highly-starred and experience queries and one query for a top category. The results are the first twelve of the scored, de-duplicated results sorted by score: at most twelve, in non-increasing order, no score above 100, each carrying its own AI insights |
| GitHub.GitHubService.RunQueries | frontend/src/services/githubService.js:88-94 | The loop over the queries leaves the projects of every query's search joined in query order |
| GitHub.TopEnhanced | frontend/src/services/githubService.js:97-103 | The first twelve of the scored projects sorted by score are at most twelve, in non-increasing order, scored at most 100, each carrying the insights of its own project and score |
| GitHub.FallbackProjects | frontend/src/services/githubService.js:650-670 | One canned project at the user's experience level, with a match score between 0 and 100 |
| CodeAnalysis.GetLineNumber | frontend/src/services/aiCodeAnalysis.js:380-382 | The line number is one plus the newlines before the clamped index, so at least 1 |
| CodeAnalysis.LineNumberMonotone | frontend/src/services/aiCodeAnalysis.js:380-382 | A later index never lies on an earlier line |
| CodeAnalysis.EstimateComplexity | frontend/src/services/aiCodeAnalysis.js:384-397 | The accumulating loop returns one plus the total of the pattern counts, so it is at least 1, above every count, and 1 iff no pattern occurs |
| CodeAnalysis.CyclomaticComplexity | frontend/src/services/aiCodeAnalysis.js:399-403 | The complexity is one more than the branch count below 20 and 20 from there on |
| CodeAnalysis.OverallScoreRange | frontend/src/services/aiCodeAnalysis.js:186-198 | After the deductions the score lies between 25 and 85 |
| CodeAnalysis.GradeIndex | frontend/src/services/aiCodeAnalysis.js:200 | The grade index is the number of whole eight-point steps below 100, clamped to the table |
| CodeAnalysis.GradeIndexOfScore | frontend/src/services/aiCodeAnalysis.js:186-200 | Every reachable score maps to a grade strictly between the first and the last one; 85 maps to the second |
| CodeAnalysis.CalculateOverallGrade | frontend/src/services/aiCodeAnalysis.js:186-201 | The grade is the table entry for the score; never A+ and never F; an A when nothing is deducted |
| CodeAnalysis.JavaScriptIssuesSound | frontend/src/services/aiCodeAnalysis.js:218-249 | At most three issues, each for a rule that fires, carrying that rule's message and line |
| CodeAnalysis.JavaScriptIssuesOrdered | frontend/src/services/aiCodeAnalysis.js:218-249 | Issues appear in rule order, var then loose equality then console logging, and no rule twice |
| CodeAnalysis.JavaScriptIssuesComplete | frontend/src/services/aiCodeAnalysis.js:218-249 | Every rule that fires is reported |
| CodeAnalysis.FindIssues | frontend/src/services/aiCodeAnalysis.js:215-252 | No issues for a language other than JavaScript; otherwise exactly the JavaScript rule issues |
| CodeAnalysis.RepeatCount | frontend/src/services/aiCodeAnalysis.js:405-411 | The number of repeated lines is at most the number of lines |
| CodeAnalysis.RepeatCountDistinct | frontend/src/services/aiCodeAnalysis.js:405-411 | Repeated lines plus distinct line texts account for every line |
| CodeAnalysis.FindDuplicateCode | frontend/src/services/aiCodeAnalysis.js:405-411 | The duplicate count is the long lines minus the distinct long lines, capped at ten |
| CodeAnalysis.MaintainabilityScore | frontend/src/services/aiCodeAnalysis.js:428-438 | The weighted score lies between the smallest and the largest of the four metrics (zero read as 5); positive for non-negative metrics and at most 10 when every metric is |
| CodeAnalysis.MaintainabilityWeights | frontend/src/services/aiCodeAnalysis.js:428-438 | Changing one non-zero metric by d changes the score by 0.3 d for complexity, 0.2 d for duplication and 0.25 d for function length or naming |
| CodeAnalysis.MaintainabilityOfEqualMetrics | frontend/src/services/aiCodeAnalysis.js:428-438 | The weights sum to one: equal non-zero metrics give that value, and all-zero metrics fall back to 5 each |
| CodeAnalysis.GetMaintainabilitySuggestions | frontend/src/services/aiCodeAnalysis.js:513-530 | Each suggestion appears exactly when its metric crosses its threshold, in fixed order, at most four |
| CodeAnalysis.AssessMaintainability | frontend/src/services/aiCodeAnalysis.js:167-181 | The metrics come from the complexity and duplicate counts; the score and suggestions follow from the metrics |
| CodeAnalysis.VulnerabilitySeverity | frontend/src/services/aiCodeAnalysis.js:440-449 | High iff the kind is xss, SQL injection or unsafe eval; low iff insecure randomness; medium otherwise |
| CodeAnalysis.VulnerabilityDescription | frontend/src/services/aiCodeAnalysis.js:451-460 | An unknown kind gets the generic description |
| CodeAnalysis.PerformanceImpact | frontend/src/services/aiCodeAnalysis.js:483-491 | High for inefficient loops and memory leaks; medium for needless re-renders and inefficient queries; low otherwise |
| CodeAnalysis.SecurityScore | frontend/src/services/aiCodeAnalysis.js:123 | The security score is 10 less 1.5 per vulnerability up to six, and 1 from six on; it lies in 1..10 and is 10 iff there are none |
| CodeAnalysis.PerformanceScore | frontend/src/services/aiCodeAnalysis.js:156 | The performance score is 10 less 0.8 per issue up to eleven, and 1 from twelve on; it lies in 1..10 and is 10 iff there are none |
| CodeAnalysis.ScoresAntitone | frontend/src/services/aiCodeAnalysis.js:123-156 | More findings never raise either score |
| ProjectMatcher.Toggle | frontend/src/components/ProjectMatcher.js:201-211 | The id becomes a favourite iff it was not one; every other id is unaffected |
| ProjectMatcher.ToggleTwice | frontend/src/components/ProjectMatcher.js:201-223 | Toggling the same id twice restores the favourites |
| ProjectMatcher.InitialFilters | frontend/src/components/ProjectMatcher.js:82-90 | The filters start with the seven keys and the user's skills |
| ProjectMatcher.SetFilter | frontend/src/components/ProjectMatcher.js:154-159 | The named filter takes the new value; every other filter is kept |
| ProjectMatcher.SetFilterTwice | frontend/src/components/ProjectMatcher.js:154-159 | The later of two changes to one filter wins |
| ProjectMatcher.TabSearch | frontend/src/components/ProjectMatcher.js:141-151 | A project search runs iff the first tab opens with no recommendations; a consultant search runs iff the second tab opens with no consultants |
| ProjectMatcher.MatcherState.constructor | frontend/src/components/ProjectMatcher.js:71-94 | The screen starts on the first tab with no results, no favourites, the initial filters and no error |
| ProjectMatcher.MatcherState.ToggleFavorite | frontend/src/components/ProjectMatcher.js:201-211 | Only the favourite projects change, by toggling the id |
| ProjectMatcher.MatcherState.ToggleFavoriteConsultant | frontend/src/components/ProjectMatcher.js:213-223 | Only the favourite consultants change, by toggling the id |
| ProjectMatcher.MatcherState.HandleFilterChange | frontend/src/components/ProjectMatcher.js:154-159 | Only the search filters change, by setting the named filter |
| ProjectMatcher.MatcherState.HandleTabChange | frontend/src/components/ProjectMatcher.js:141-151 | The tab is set and the error cleared, and the search to run is reported |
| ProjectMatcher.OlderExperienceScore | frontend/src/components/ProjectMatcher.js:182-186 | The experience score is 30 when the levels agree, 20 when one apart and 10 when two apart |
| ProjectMatcher.PopularityScore | frontend/src/components/ProjectMatcher.js:189-190 | The popularity score lies in 0..20 and reaches 20 iff the star and contributor shares reach it |
| ProjectMatcher.OlderMatchScore | frontend/src/components/ProjectMatcher.js:171-196 | No number (NaN) iff the project lists no technologies; otherwise at most 100, and non-negative for a non-negative impact score |
| ProjectMatcher.OlderMatchScoreFull | frontend/src/components/ProjectMatcher.js:171-196 | A fully covered, level-matched, popular project gets 90 plus its impact, rounded and capped at 100 |
| ProjectMatcher.DifficultyColor | frontend/src/components/ProjectMatcher.js:225-232 | Success, warning and error for beginner, intermediate and advanced; the default colour otherwise |
| AIAssistant.GenerateAIResponse | frontend/src/components/AIAssistant.js:138-179 | An optimisation answer iff the query mentions optimising or performance; otherwise security, then testing, in that priority; the general answer carries four suggestions |
| AIAssistant.TestingImpliesTest | frontend/src/components/AIAssistant.js:159 | Asking about testing is the same as mentioning "test" |
| AIAssistant.Chat.constructor | frontend/src/components/AIAssistant.js:53-59 | The chat starts with an empty query, an empty history, not loading and awaiting no reply |
| AIAssistant.Chat.SendQuery | frontend/src/components/AIAssistant.js:121-126 | A blank query changes nothing; any other query is appended to the history as a user message, starts loading and becomes the query whose reply is awaited; loading holds exactly while a reply is awaited |
| AIAssistant.Chat.ReceiveReply | frontend/src/components/AIAssistant.js:129-134 | Only the query captured at sending is answered: its generated answer is appended, loading stops, nothing is awaited any more and the query is cleared |
| AIAssistant.SeverityColor | frontend/src/components/AIAssistant.js:237-244 | Error, warning and info for high, medium and low severity; the default colour otherwise |
| Login.InitialFormData | frontend/src/App.js:1708-1712 | The form holds exactly the email, password and remember-me fields |
| Login.FormErrors | frontend/src/App.js:1729-1743 | An email error iff the email is empty or does not match non-space text, @, non-space text, a dot and non-space text; a password error iff it is empty or shorter than six characters |
| Login.FormErrorsEmpty | frontend/src/App.js:1729-1746 | The form is valid iff the email has the required shape and the password has at least six characters |
| Login.DemoCredentialsValid | frontend/src/App.js:1759 | The demo credentials pass validation |
| Login.LoginForm.constructor | frontend/src/App.js:1707-1714 | The form starts with the initial data, no errors and no error banner |
| Login.LoginForm.HandleInputChange | frontend/src/App.js:1716-1727 | The changed field takes the new value, its error is cleared if it had one, and nothing else changes |
| Login.LoginForm.ValidateForm | frontend/src/App.js:1729-1746 | The errors are those of the current email and password, and the form is valid iff there are none |
| Login.LoginForm.HandleSubmit | frontend/src/App.js:1748-1766 | Login succeeds iff the demo credentials were entered; an invalid form stops before the check; the error banner shows iff valid credentials are rejected |
| GridWorld.GoalFor | projects/q-learning-agent/grid_world_env.py:26 | The goal defaults to the bottom-right cell |
| GridWorld.ObstaclesAsWritten | projects/q-learning-agent/grid_world_env.py:27-29 | Given obstacles are used as they are; with none given, the fixed default list, goal included |
| GridWorld.ObstaclesFor | projects/q-learning-agent/grid_world_env.py:27-29 | The corrected default obstacle list: the fixed list without the goal cell |
| GridWorld.IsValidPosition | projects/q-learning-agent/grid_world_env.py:54-63 | A valid position is a cell of a non-empty grid, within its bounds, and no obstacle |
| GridWorld.Move | projects/q-learning-agent/grid_world_env.py:79-88 | A move is defined exactly for the four actions |
| GridWorld.StepFrom | projects/q-learning-agent/grid_world_env.py:65-105 | An invalid action is an error; otherwise the agent moves if the target is free; the episode ends iff it reaches the goal; rewards are 10, -0.1 or -1 |
| GridWorld.StepKeepsValid | projects/q-learning-agent/grid_world_env.py:91-92 | From a valid cell (on the grid and off the obstacles) a step lands on a valid cell |
| GridWorld.BlockedGoalNeverReached | projects/q-learning-agent/grid_world_env.py:91-103 | When the goal is an obstacle no step ever ends the episode |
| GridWorld.SimpleWorldGoalBlocked | projects/q-learning-agent/grid_world_env.py:171-173 | In the default 5 by 5 world the goal (4,4) is among the obstacles |
| GridWorld.DefaultGoalReachable | projects/q-learning-agent/grid_world_env.py:26-29 | With the corrected obstacles, a goal whose left neighbour is free is reached by moving right, which ends the episode with reward 10 |
| GridWorld.GridWorldEnv.constructor | projects/q-learning-agent/grid_world_env.py:12-36 | The environment holds the given size and goal and the corrected obstacles (the given list, or the default list without the goal), and places the agent on a free cell |
| GridWorld.GridWorldEnv.Reset | projects/q-learning-agent/grid_world_env.py:38-48 | The agent is placed on a free cell, which is returned |
| GridWorld.GridWorldEnv.Step | projects/q-learning-agent/grid_world_env.py:65-105 | The step result is the transition from the old position, the agent moves to its new state, and validity is kept |
| QLearning.ArgMax | projects/q-learning-agent/q_learning_agent.py:65 | The index of the first largest Q-value |
| QLearning.MaxOf | projects/q-learning-agent/q_learning_agent.py:79 | The largest value of a row, taken from the row |
| QLearning.NextValue | projects/q-learning-agent/q_learning_agent.py:73-79 | Zero at a terminal or unseen next state, otherwise the largest Q-value there |
| QLearning.UpdatedBetween | projects/q-learning-agent/q_learning_agent.py:82-84 | With a learning rate in 0..1 the new value lies between the old value and the target; rate 1 gives the target and rate 0 the old value |
| QLearning.DecayedNonIncreasing | projects/q-learning-agent/q_learning_agent.py:123-124 | Epsilon never grows over the episodes and, once at its minimum, stays there |
| QLearning.FreeCellsBound | projects/q-learning-agent/q_learning_agent.py:36-42 | A table keyed by the free cells has at most width times height entries |
| QLearning.StateSpaceCells | projects/q-learning-agent/grid_world_env.py:167-169 | The state-space size, width times height, is the number of grid cells, and the Q-table keyed by free cells never has more states |
| QLearning.ZeroTable | projects/q-learning-agent/q_learning_agent.py:36-42 | Every free cell, and nothing else, gets a row of zeros |
| QLearning.QLearningAgent.constructor | projects/q-learning-agent/q_learning_agent.py:12-34 | The agent keeps its parameters and starts with a zero row for every free cell |
| QLearning.QLearningAgent.InitializeQTable | projects/q-learning-agent/q_learning_agent.py:36-42 | The table gets a zero row for every free cell, no more than the state-space size |
| QLearning.QLearningAgent.GetQ | projects/q-learning-agent/q_learning_agent.py:44-48 | An unseen state reads as zero |
| QLearning.QLearningAgent.SetQ | projects/q-learning-agent/q_learning_agent.py:50-54 | The one entry takes the value and every other entry is unchanged |
| QLearning.QLearningAgent.UpdateQ | projects/q-learning-agent/q_learning_agent.py:67-87 | The entry becomes the Q-learning update of its old value toward the reward plus the discounted best next value; every other entry is unchanged |
| QLearning.QLearningAgent.ChooseAction | projects/q-learning-agent/q_learning_agent.py:56-65 | A valid action, and the greedy one whenever the draw does not explore |
| QLearning.QLearningAgent.GetPolicy | projects/q-learning-agent/q_learning_agent.py:196-201 | Each known state is mapped to its greedy action |
| QLearning.QLearningAgent.Act | projects/q-learning-agent/q_learning_agent.py:104-114 | One step of an episode keeps the table keyed by free cells and epsilon unchanged; the agent stands on the reached cell, which is free unless it is the goal; the reward is 10, -1 or -0.1, and 10 exactly when the episode ends |
| QLearning.QLearningAgent.RunEpisode | projects/q-learning-agent/q_learning_agent.py:96-121 | At most the step limit; the total reward is the sum of the step rewards, each 10, -1 or -0.1, with 10 only last; an episode shorter than the limit ended at the goal; the total lies in -steps..10; the table stays keyed by free cells |
| QLearning.QLearningAgent.Train | projects/q-learning-agent/q_learning_agent.py:89-141 | One reward and one step count per episode, each episode within the step limit, and epsilon decayed once per episode |
| TuneHyperparameters.DecayBlockEntry | projects/q-learning-agent/tune_hyperparameters.py:17-65 | The k-th trial for a fixed rate and discount evaluates the k-th epsilon decay |
| TuneHyperparameters.RateBlockSize | projects/q-learning-agent/tune_hyperparameters.py:16-17 | One learning rate contributes discounts times decays trials |
| TuneHyperparameters.RateBlockEntry | projects/q-learning-agent/tune_hyperparameters.py:16-65 | Within one learning rate, trial j times decays plus k evaluates discount j with decay k |
| TuneHyperparameters.TrialsSize | projects/q-learning-agent/tune_hyperparameters.py:10-18 | The grid search runs rates times discounts times decays trials |
| TuneHyperparameters.TrialsAt | projects/q-learning-agent/tune_hyperparameters.py:15-65 | Each combination is evaluated once, at its row-major position in the results |
| TuneHyperparameters.EvaluateDecays | projects/q-learning-agent/tune_hyperparameters.py:17-65 | The innermost loop produces the decay block for its rate and discount |
| TuneHyperparameters.EvaluateDiscounts | projects/q-learning-agent/tune_hyperparameters.py:16-65 | The middle loop produces the block for its learning rate |
| TuneHyperparameters.EvaluateHyperparameters | projects/q-learning-agent/tune_hyperparameters.py:6-73 | The results are all the trials in loop order, and the counter equals their number |
| TuneHyperparameters.FindBestHyperparameters | projects/q-learning-agent/tune_hyperparameters.py:122-128 | Nothing iff there are no results; otherwise the first trial with the highest success rate |
| TextGeneration.Vocabulary | projects/text-generation-lstm/text_generation.py:30 | The characters of the text, sorted, each once |
| TextGeneration.VocabularySize | projects/text-generation-lstm/text_generation.py:30-31 | The vocabulary size is the number of distinct characters |
| TextGeneration.CharToIndex | projects/text-generation-lstm/text_generation.py:34 | Every vocabulary character, and nothing else, maps to its position |
| TextGeneration.IndexToChar | projects/text-generation-lstm/text_generation.py:35 | Every position of the vocabulary, and nothing else, maps to its character |
| TextGeneration.MappingsInverse | projects/text-generation-lstm/text_generation.py:34-35 | The two maps are inverse to each other in both directions |
| TextGeneration.IndicesFollowOrder | projects/text-generation-lstm/text_generation.py:30-34 | Indices follow character order |
| TextGeneration.Encode | projects/text-generation-lstm/text_generation.py:45 | Encoding fails iff some character is outside the map; otherwise it maps each character |
| TextGeneration.Decode | projects/text-generation-lstm/text_generation.py:151 | Decoding fails iff some index is outside the map; otherwise it maps each index |
| TextGeneration.DecodeEncode | projects/text-generation-lstm/text_generation.py:30-45 | A text encoded with its own vocabulary always encodes and decodes back to itself |
| TextGeneration.NormaliseSeed | projects/text-generation-lstm/text_generation.py:125-130 | A short seed is padded with spaces to the sequence length; a long one is cut to its last characters; length zero keeps the seed whole |
| TextGeneration.TextGenerator.constructor | projects/text-generation-lstm/text_generation.py:14-25 | The generator starts with its sequence length, no model and empty maps |
| TextGeneration.TextGenerator.PreprocessText | projects/text-generation-lstm/text_generation.py:27-40 | The vocabulary, its size and both maps are set from the text |
| TextGeneration.TextGenerator.CreateModel | projects/text-generation-lstm/text_generation.py:63-81 | A model exists afterwards and the vocabulary is untouched |
| TextGeneration.TextGenerator.Train | projects/text-generation-lstm/text_generation.py:83-86 | Training fails iff there is no model |
| TextGeneration.TextGenerator.CreateSequences | projects/text-generation-lstm/text_generation.py:42-61 | Fails iff the text has unknown characters; otherwise each window of the encoded text is paired with the next index |
| TextGeneration.TextGenerator.GenerateText | projects/text-generation-lstm/text_generation.py:119-160 | Fails without a model or for a seed with unknown characters; any output is the normalised seed followed by exactly the requested number of vocabulary characters; with a model, a known seed and a non-empty vocabulary it succeeds |
| Sentiment.WordSetsDisjoint | projects/sentiment-analysis-nlp/sentiment_analysis.py:30-40 | No word is both positive and negative |
| Sentiment.RuleBasedAnalyzer.constructor | projects/sentiment-analysis-nlp/sentiment_analysis.py:28-40 | The analyser holds the two word sets, which are disjoint |
| Sentiment.RuleBasedAnalyzer.AnalyzeSentiment | projects/sentiment-analysis-nlp/sentiment_analysis.py:54-65 | Positive iff more positive than negative words, negative iff fewer, neutral on a tie; the confidence is the winning count over the total plus one, or one half for a tie |
| Sentiment.RuleBasedAnalyzer.CountsWithinTokens | projects/sentiment-analysis-nlp/sentiment_analysis.py:57-58 | The positive and negative counts together never exceed the number of tokens |
| Sentiment.CleanText | projects/sentiment-analysis-nlp/sentiment_analysis.py:73-78 | Cleaning leaves only lower-case letters and white space and never lengthens the text |
| Sentiment.CleanTextIdempotent | projects/sentiment-analysis-nlp/sentiment_analysis.py:73-78 | Cleaning twice is cleaning once |
| Sentiment.CleanTextAppend | projects/sentiment-analysis-nlp/sentiment_analysis.py:73-78 | Cleaning works character by character: cleaning a concatenation concatenates the cleanings |
| Sentiment.CleanTextChar | projects/sentiment-analysis-nlp/sentiment_analysis.py:73-78 | One character is kept, lower-cased, iff it is an ASCII letter or white space, and dropped otherwise |
| Sentiment.CleanTextKeepsLetters | projects/sentiment-analysis-nlp/sentiment_analysis.py:73-78 | A text of letters and white space is only lower-cased |
| Sentiment.LearnedAnalyzer.constructor | projects/sentiment-analysis-nlp/sentiment_analysis.py:68-71 | The analyser starts untrained |
| Sentiment.LearnedAnalyzer.Train | projects/sentiment-analysis-nlp/sentiment_analysis.py:80-91 | The analyser is trained on the cleaned texts |
| Sentiment.LearnedAnalyzer.Predict | projects/sentiment-analysis-nlp/sentiment_analysis.py:93-110 | An error iff untrained; otherwise the classifier's answer for the cleaned text |
| TrainModels.Normalise | projects/sentiment-analysis-nlp/train_models.py:42 | Joining the split words gives single spaces with no white space at either end, and keeps the other characters in order |
| TrainModels.WordPrefix | projects/sentiment-analysis-nlp/train_models.py:42 | The longest prefix without white space: a prefix of the text, free of white space, followed by white space or the end, and non-empty when the text starts with a non-space |
| TrainModels.WordsAreWords | projects/sentiment-analysis-nlp/train_models.py:42 | Every piece `split()` returns is non-empty and holds no white space |
| TrainModels.NormaliseWords | projects/sentiment-analysis-nlp/train_models.py:42 | Normalising is joining the split words with single spaces |
| TrainModels.NormaliseIdempotent | projects/sentiment-analysis-nlp/train_models.py:42 | Normalising twice is normalising once |
| TrainModels.NormaliseLowerOrSpace | projects/sentiment-analysis-nlp/train_models.py:36-42 | A cleaned text stays lower-case letters and single spaces |
| TrainModels.PreprocessText | projects/sentiment-analysis-nlp/train_models.py:30-44 | A missing value gives the empty string; otherwise the lower-cased letters of the text in order, single-spaced, and exactly the words of the cleaned text joined by single spaces |
| TrainModels.LettersOfCleanText | projects/sentiment-analysis-nlp/train_models.py:36-39 | The characters kept by cleaning, apart from white space, are exactly the letters of the lower-cased text |
| TrainModels.PreprocessTextIdempotent | projects/sentiment-analysis-nlp/train_models.py:30-44 | Preprocessing its own output changes nothing |
| TrainModels.Stem | projects/sentiment-analysis-nlp/train_models.py:163 | The file stem is the name with every space replaced by an underscore and every capital lower-cased, character by character |
| TrainModels.SavePaths | projects/sentiment-analysis-nlp/train_models.py:163-168 | Both files are in the models folder, share the stem, differ in their suffix and so never coincide |
| TrainModels.BestModelName | projects/sentiment-analysis-nlp/train_models.py:217 | Nothing iff there are no results; otherwise the first model with the highest accuracy |
| Ranking.SortDescCorrect | frontend/src/services/githubService.js:101 | The sort by descending score is non-increasing, a permutation of its input, and stable |
| Ranking.TopSorted | frontend/src/services/githubService.js:101-103 | The first n of the sorted list are sorted and keep any bound on the scores |
| Ranking.Take | frontend/src/services/githubService.js:103 | A slice from the start is a prefix of at most n items, and the whole list when it is short |
| Ranking.FirstMax | projects/q-learning-agent/tune_hyperparameters.py:127 | The pick has the greatest key, and every earlier item has a smaller one |
| Text.IndexOfCorrect | frontend/src/services/aiCodeAnalysis.js:222 | The index of the first occurrence of a pattern, and no occurrence iff it is absent |
| Text.Split | frontend/src/services/aiCodeAnalysis.js:381 | Splitting at a separator gives one more piece than separators, and no piece contains it |
| Text.JoinSplit | frontend/src/services/aiCodeAnalysis.js:381 | Joining the pieces back with the separator gives the original string |
| Text.TrimBlank | frontend/src/components/AIAssistant.js:122 | A string trims to nothing iff it is all white space |
| Numbers.Round | frontend/src/services/consultantService.js:427 | Rounding gives the nearest integer, with halves rounded up |
| Numbers.Share | frontend/src/services/consultantService.js:398 | A share of n out of m, times m, is n; it lies in 0..1, is 1 iff n equals m and 0 iff n is 0 |

## Left out

- Network access: the `fetch` calls of `executeSearch` are a function parameter.
- Asynchronous execution: promises, `setTimeout` delays and loading spinners are not modelled. Each handler is one synchronous step; the chat's delayed reply is the separate step `AIAssistant.Chat.ReceiveReply`.
- The asynchronous glue of the matcher screen is not modelled: `runAIMatching`, `searchConsultants`, `executeSearch` and the mount effect (ProjectMatcher.js:97-138, 162-168, 234-238). They only call the two services and store the results, and those services are modelled.
- Foreign libraries are not modelled: Keras model building, training and prediction, scikit-learn classifiers and vectorisers, and NLTK tokenising, stop words and lemmatising. Tokens, trained classifiers, predicted indices and evaluation metrics are inputs.
- Case folding, `\s` and `[a-zA-Z]` are ASCII only; Unicode case mapping is not modelled. White space is space, tab, newline, carriage return, vertical tab and form feed; Python's `str.split` and `\s` also count the separators \x1c-\x1f and Unicode spaces, and JavaScript's `trim()` (AIAssistant.js:122) also strips no-break space \u00A0, the byte-order mark \uFEFF, the line and paragraph separators \u2028 and \u2029 and the other Unicode space separators; the model does not.
- Floating point is exact real arithmetic; `Math.round` is floor of x + 0.5.
- Randomness is not modelled. Random choices (the recommendation tip, the random category query, exploration, reset positions, sampling in text generation) are parameters or nondeterministic choices. The evaluation of one combination in the grid search (tune_hyperparameters.py:22-62), which trains and tests a fresh agent, is a function parameter; being a function, it scores repeated trials of the same combination alike, whereas the program retrains with fresh randomness each time.
- Dates are integers compared with a given "one year ago".
- `Math.log10(stars + 1)` is an input.
- `impactScore` of the AI insights (githubService.js:532-545) is not modelled.
- The text templates of the insights are not modelled; reasons, tips and badges are enumerations carrying their data. `explainDifficulty` keeps its three texts.
- The suggestion, recommendation and optimisation string tables of the code analyser (aiCodeAnalysis.js:462-481, 493-511) are not modelled, and neither is the `calculateMetrics` line counter (204-213). The regular-expression match counts are inputs.
- `getPopularFilters` (consultantService.js:515-531) is not modelled; it only returns a constant table.
- The `catch` of `searchConsultants` (consultantService.js:377-380) only rethrows. The `catch` fallback of `searchProjects` (githubService.js:105-109) cannot be reached, because every modelled step is total; `GitHub.FallbackProjects` models its result on its own.
- Plotting, printing, saving and loading models, the interactive demos and the `test()` routines of the Python projects are not modelled.
- QLearning.QLearningAgent.RunEpisode: the step rewards are a ghost record of the episode; the environment's reward is constrained to its three values, not tied to the particular cell each step reaches.
- GridWorld.GridWorldEnv.constructor: the grid is built from the corrected obstacle list `GridWorld.ObstaclesFor`, not from `GridWorld.ObstaclesAsWritten`, so the environment and the agents built on it model the corrected program; the as-written default and its blocked goal are kept in `GridWorld.ObstaclesAsWritten` and `GridWorld.SimpleWorldGoalBlocked` (see Findings).
- GridWorld.GridWorldEnv.constructor and GridWorld.GridWorldEnv.Reset require a grid with a free cell (on the grid, off the obstacles, not the goal), and so do QLearning.QLearningAgent.RunEpisode and QLearning.QLearningAgent.Train, which reset the environment. On a grid without one, such as `GridWorldEnv(1, 1)`, the sampling loop of `reset` (grid_world_env.py:41-46) never ends; with width or height 0, `randint` raises `ValueError`. Neither outcome is modelled.
- GitHub.ExplainDifficulty: only a non-empty text is stated; that the three texts differ is not proved.
- TuneHyperparameters.EvaluateHyperparameters: the loop adds the size of each learning-rate block to the counter instead of counting one by one; the final count is the same.
- GitHub.GetLanguageForSkill: the table entries are not stated key by key; the contract gives only the fallback and the absence of capitals.
- ConsultantService.ReputationPart: only bounds are stated, not the exact weighting of rating and review count.
- GitHub.QualityScore and GitHub.ContributionScore: only bounds are stated, not the individual bonus terms.
- ConsultantService.MatchedSkills: matching is stated in the direction the insights use (the consultant skill contains the requested one), unlike the two-way match of the filter.
- CodeAnalysis.VulnerabilityDescription: only the fallback description is stated; the per-kind texts are a plain table.
- String lengths and positions: Dafny strings are sequences of Unicode scalar values, while JavaScript's `.length` and indices count UTF-16 code units. For text outside the Basic Multilingual Plane (emoji, for instance) the model's counts are smaller: the password rule `password.length < 6` (App.js:1740), the code length limit `codeLength > 5000` (aiCodeAnalysis.js:188), the long-line test `line.trim().length > 10` (aiCodeAnalysis.js:407) and the line-number offsets of `GetLineNumber` all count scalar values here, so "😀😀😀" is a six-unit password in the program and a three-character one in the model.
- Criteria coercion: the consultant criteria arrive already typed (`ConsultantService.Criteria`, experience as an optional integer). `parseInt(experience)` (consultantService.js:358) and JavaScript's string-to-number coercion are not modelled: a text such as "abc" that gives `NaN` (and so empties the result) or "5+" that parses as 5 has no counterpart.

## Findings

| source | as written | input that shows it | evidently intended | confidence | as-written member | corrected member |
|---|---|---|---|---|---|---|
| projects/q-learning-agent/grid_world_env.py:26-29 | With no obstacles given, the default obstacle list is used as is. In a 5 by 5 world that list contains the default goal (4,4) | `create_simple_grid_world()` (grid_world_env.py:171-173) makes a 5 by 5 world whose goal is an obstacle. No step ever ends the episode, so every episode runs to its step limit | The goal cell is not an obstacle | not executed | GridWorld.SimpleWorldGoalBlocked | GridWorld.DefaultGoalReachable |
