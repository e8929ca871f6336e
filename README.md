# Resume-to-job matching core, modelled in Dafny

This project models the server-side core of a resume-to-job matching web app:

- `lib/ai.ts`: choosing an AI provider from the configured keys, one chat completion, `callAI`, and
  `extractKeywords`. The last one builds the resume prompt, removes code fences from the reply and
  fills in defaults for missing fields.
- `lib/job-api.ts`: the JSearch and Adzuna job sources and their mapping of raw items to listings.
  Also the helpers that pick skills, read the years of experience and format Indian-rupee salaries, and
  `fetchRealJobs`, which gathers listings, drops duplicate ids (the last listing for an id wins, in the
  place its id first appeared) and caps the result at 50.
- `lib/match.ts`: `matchJobs`, which chooses the real jobs or the mock jobs, scores every job with the
  AI (falling back to a keyword-overlap score), and sorts the scores highest first.

Modules:

| file | module | contents |
|---|---|---|
| `wrappers.dfy` | `Wrappers` | `Option`, `Result` |
| `text.dfy` | `Text` | the JavaScript string operations used by the core: `toLowerCase`, `trim`, `includes`, `startsWith`, `join`, `split`, decimal rendering |
| `json.dfy` | `JsValue` | a parsed JSON value with JavaScript truthiness, `a \|\| b`, optional property access and template-string conversion |
| `job_fields.dfy` | `JobFields` | `extractSkillsFromDescription`, `extractExperience`, `formatSalary` |
| `job_api.dfy` | `JobApi` | the two sources, item mapping, `fetchRealJobs` |
| `ai.dfy` | `Ai` | `getProvider`, `createChatCompletion`, `callAI`, the reply cleaner, `extractKeywords` |
| `match.dfy` | `Match` | `matchJobs`: job choice, scoring, fallback score, stable sort |

Everything outside the program is an input of the model:

- the environment keys (`Ai.Env`);
- each job source's answer (`JobApi.SourceResponse`: no credentials, request failed, or the parsed JSON body);
- each AI provider's HTTP outcome, as functions from prompt to outcome (`Ai.Services`);
- `JSON.parse`, as a function from the cleaned reply to the parsed shape;
- the mock job list.

Exceptions become `Result` values:

- An exception thrown inside a source's `map` (a `null` item, a non-string description, `join` on a
  non-array) makes that source contribute no listings, as its `catch` does.
- `extractKeywords` calls `callAI` outside its `try`, so an AI failure propagates as an error. A reply
  that fails to parse gives the fallback profile.
- In `matchJobs` any failure while scoring a job gives the keyword fallback for that job.

The methods (`FormatSalary`, `ProbeContainer`, `CollectJobs`, `IndexById`, `DedupById`,
`FetchRealJobs`, `CleanReply`, `ExtractKeywords`, `SortByScore`, `MatchJobs`) follow the step-by-step
code of the source. Each is proved equal to a specification function, and the lemmas are about that
function. `matchJobs` sorts an array in place; `SortByScore` is an insertion sort proved equal to
`SortedByScore`, the stable descending order that `Array.prototype.sort` gives with the comparator
`b.relevanceScore - a.relevanceScore`.

Two behaviours are modelled as written:

- The JSearch fallback id is `jsearch-jsearch-<index>`, because the default id `jsearch-<index>` is
  prefixed a second time.
- For numeric bounds, the last line of `formatSalary` (`return "Not disclosed"` after the three
  branches) cannot be reached; `FormatSalary` marks it as dead code. `JobApi.NumberOf` treats a salary
  field that is not a JSON number as absent (see Left out). The program converts such a field instead:
  numeric text, booleans and one-element numeric arrays become numbers and are shown, and only text
  that does not convert becomes NaN.

## Model

| member | source | states |
|---|---|---|
| JobFields.CommonSkillsDistinct | lib/job-api.ts:189-210 | the 20 known skills are pairwise distinct |
| JobFields.ExtractSkills | lib/job-api.ts:188-214 | a skill is reported iff it is one of the 20 known skills and its lower-cased name occurs in the lower-cased description; the result keeps the list's order, has no duplicates and holds at most 20 skills |
| JobFields.Mentioned | lib/job-api.ts:212-213 | the filter keeps exactly the terms mentioned in the text, in order, without introducing duplicates |
| JobFields.JavaScriptImpliesJava | lib/job-api.ts:213 | substring matching reports Java whenever JavaScript is reported |
| JobFields.SkillFound | lib/job-api.ts:213 | every reported skill occurs in the lower-cased description |
| JobFields.SkillReported | lib/job-api.ts:213 | every known skill that occurs in the lower-cased description is reported |
| JobFields.EmptyDescription | lib/job-api.ts:46-49 | a listing with no description gets no skills and the default "2+ years" |
| JobFields.NoSkillsInEmptyText | lib/job-api.ts:212-213 | no known skill occurs in the empty text |
| JobFields.FirstMatch | lib/job-api.ts:217 | finds the leftmost position where the experience pattern matches, or reports that none matches |
| JobFields.RegexMatchCharacterized | lib/job-api.ts:217 | a match of the pattern (digits, optional "+", spaces, "year" with optional "s", any letter case) starts at i and ends its digit group at j iff the scanner accepts i and j ends the digit run |
| JobFields.YearAfterSpacesIsGreedy | lib/job-api.ts:217 | skipping the whitespace greedily decides whether "year" can follow |
| JobFields.YearsAtIsRegexTail | lib/job-api.ts:217 | the text after the digits matches the rest of the pattern iff "year" follows directly or after one "+" |
| JobFields.NoYearAt | lib/job-api.ts:217 | a character that is neither whitespace nor y/Y cannot start the rest of the pattern |
| JobFields.YearsCount | lib/job-api.ts:216-222 | the years count is always a non-empty run of digits |
| JobFields.ExtractExperience | lib/job-api.ts:216-222 | the experience always reads as a non-empty run of digits followed by "+ years" |
| JobFields.ExperienceFromLeftmostMatch | lib/job-api.ts:217-220 | with a leftmost match, the result is its digit group followed by "+ years" |
| JobFields.LeftmostMatchNotAfterDigit | lib/job-api.ts:217 | the leftmost match is not preceded by a digit, so its group is the whole maximal run of digits |
| JobFields.ExperienceDefault | lib/job-api.ts:221 | with no match anywhere, the result is "2+ years" |
| JobFields.StripGroupIndian | lib/job-api.ts:231-233 | removing the commas from the grouped digits gives back the digits |
| JobFields.FormatNumber | lib/job-api.ts:231-233 | a number is shown with en-IN grouping (a minus sign first when negative), and removing the commas gives its decimal digits |
| JobFields.GroupIndianShape | lib/job-api.ts:231-233 | en-IN grouping puts commas exactly 3 digits from the right and then every 2 digits, and every other character is a digit |
| JobFields.FormatNumberGrouping | lib/job-api.ts:231-233 | a formatted natural number is en-IN grouped and its digits read back as the number |
| JobFields.FormatLakh | lib/job-api.ts:231-233 | 100000 formats as "1,00,000" and -100000 as "-1,00,000" |
| JobFields.FormatFiveDigits | lib/job-api.ts:231-233 | a five-digit number gets one comma after its first two digits |
| JobFields.FormatFifty | lib/job-api.ts:231-233 | 50000 formats as "50,000" |
| JobFields.FormatEighty | lib/job-api.ts:231-233 | 80000 formats as "80,000" |
| JobFields.FormatSalary | lib/job-api.ts:224-250 | the branch-by-branch salary text equals the specification function `SalaryText` |
| JobFields.SalaryText | lib/job-api.ts:229-249 | the salary is "Not disclosed" iff neither bound is present and non-zero |
| JobFields.SalaryShapes | lib/job-api.ts:235-247 | for all bounds: both given give "₹A - ₹B", only the minimum "₹A+", only the maximum "Up to ₹B", with A and B the bounds converted by `InRupees` (×83 for USD only) |
| JobFields.OnlyUsdConverted | lib/job-api.ts:235-239 | any currency other than USD is shown unconverted, like INR |
| JobFields.SalaryBothBounds | lib/job-api.ts:241-242 | 50000 and 80000 INR show as "₹50,000 - ₹80,000" |
| JobFields.SalaryConvertedMinimum | lib/job-api.ts:235-244 | a minimum of 1000 USD shows as "₹83,000+" |
| JobFields.SalaryOnlyMaximum | lib/job-api.ts:229-246 | a lone maximum of 100000 shows as "Up to ₹1,00,000" |
| JobFields.SalaryZeroMinimum | lib/job-api.ts:229 | a zero minimum alone is falsy, so the salary is "Not disclosed" |
| JobApi.FirstFive | lib/job-api.ts:34 | the query takes the first five keywords, or all of them when there are fewer |
| JobApi.QueriesUseFirstFive | lib/job-api.ts:34-77 | keyword lists that agree on their first five give the same JSearch and Adzuna queries |
| JobApi.QueryExamples | lib/job-api.ts:34-77 | no keywords ask JSearch for "developer jobs"; two keywords ask for them plus " jobs"; Adzuna drops the sixth keyword |
| JobApi.MakeListing | lib/job-api.ts:142-154 | skills and experience are read from the description; every other field is stored as given |
| JobApi.NumberOf | lib/job-api.ts:48 | a salary bound is present exactly when the field holds a number, and then it is that number |
| JobApi.CurrencyOf | lib/job-api.ts:148 | a string currency field is passed on as it is; otherwise the default "INR" applies |
| JobApi.DescriptionText | lib/job-api.ts:46-47 | the description can be read as text iff it is a string, otherwise mapping the item throws |
| JobApi.FirstArrayUnder | lib/job-api.ts:111-119 | a non-empty result is an array stored under one of the probed keys |
| JobApi.ContainerItems | lib/job-api.ts:107-120 | a top-level array is itself the list of items |
| JobApi.ProbeContainer | lib/job-api.ts:107-120 | the if-chain over the response shape returns what `ContainerItems` specifies |
| JobApi.ContainerShapes | lib/job-api.ts:111-119 | an array under "data", "jobs", "results" or "job_results" is found; under any other key nothing is |
| JobApi.ContainerUnrolled | lib/job-api.ts:111-119 | for anything but a bare array, the items are those of the first of "data", "jobs", "results", "job_results" that holds an array, else none |
| JobApi.ContainerPrecedence | lib/job-api.ts:111-119 | an array under "data" is preferred over one under "job_results" |
| JobApi.ContainerSkipsNonArray | lib/job-api.ts:111-119 | a non-array "data" is skipped and a later "job_results" array is taken |
| JobApi.Highlights | lib/job-api.ts:137 | the highlights join throws exactly when `items` is present, not null and not an array; a joined value is a string |
| JobApi.JSearchDescription | lib/job-api.ts:137 | a truthy `job_description` or `description` is used as it is; only the highlights join can throw |
| JobApi.JSearchLocation | lib/job-api.ts:138-140 | "city, state" when both are truthy, otherwise whichever is truthy, otherwise the requested location |
| JobApi.JSearchItem | lib/job-api.ts:132-155 | a null item makes the mapping throw; the mapping succeeds exactly when the item is not null and its description can be read as a string; every mapped listing's id starts with "jsearch-" |
| JobApi.JSearchItemDefaults | lib/job-api.ts:134-153 | an empty item gets id "jsearch-jsearch-" plus its index and every documented default |
| JobApi.JSearchItemPlace | lib/job-api.ts:138-140 | city Pune and state Maharashtra give the location "Pune, Maharashtra" |
| JobApi.JSearchItemFields | lib/job-api.ts:132-155 | every field of a mapped item: the first truthy alternative field or its default for id, title, company, location and type; skills and experience read from the description; the salary from the two bounds and the currency; link and date as found |
| JobApi.AllListings | lib/job-api.ts:132-158 | the mapping yields every item's listing in order, or no listings at all when one item throws |
| JobApi.JSearchJobs | lib/job-api.ts:107-158 | every JSearch listing's id starts with "jsearch-", and there are at most as many listings as items |
| JobApi.JSearchNullItem | lib/job-api.ts:132-158 | one null item empties the whole JSearch result |
| JobApi.JSearchSource | lib/job-api.ts:62-160 | a source that did not answer with a body contributes nothing; every listing is prefixed "jsearch-" |
| JobApi.AdzunaItem | lib/job-api.ts:42-54 | a null item makes the mapping throw; the mapping succeeds exactly when the item is not null and its description is a string or falsy; every mapped listing's id starts with "adzuna-" |
| JobApi.AdzunaItemDefaults | lib/job-api.ts:42-54 | an empty item gets id "adzuna-" plus its index and every documented default |
| JobApi.AdzunaItemFields | lib/job-api.ts:42-54 | every field of a mapped item: `id \|\| index`, the title, the nested company and location display names and the contract type with their defaults, skills and experience read from the description, the salary in rupees, link and creation date as found |
| JobApi.AdzunaJobs | lib/job-api.ts:40-57 | every Adzuna listing's id starts with "adzuna-"; without a "results" array there are none |
| JobApi.AdzunaSource | lib/job-api.ts:21-59 | a source without credentials or a failed request contributes nothing; every listing is prefixed "adzuna-" |
| JobApi.Gathered | lib/job-api.ts:167-177 | JSearch's listings come first; with fewer than 20 of them Adzuna's listings follow, with 20 or more nothing else is added; everything after them comes from Adzuna |
| JobApi.AdzunaOnlyWhenFew | lib/job-api.ts:170-177 | with 20 or more JSearch listings Adzuna's answer is ignored |
| JobApi.SourcesDisjoint | lib/job-api.ts:43-143 | a JSearch listing and an Adzuna listing never share an id |
| JobApi.HasIdSnoc | lib/job-api.ts:180-182 | an id occurs in a list extended by one listing iff it occurred before or is that listing's id |
| JobApi.HasIdsSnocAll | lib/job-api.ts:180-182 | the same, for every id at once |
| JobApi.DistinctIds | lib/job-api.ts:180-182 | the Map's keys, in first-insertion order: each id once, exactly the ids present |
| JobApi.DistinctIdsSnoc | lib/job-api.ts:180-182 | a new id joins the keys at the end, and a repeated id leaves them unchanged |
| JobApi.DistinctIdsFirstOccurrence | lib/job-api.ts:180-182 | the keys are in first-occurrence order: wherever a later key occurs, every earlier key has already occurred before that place |
| JobApi.LastWithId | lib/job-api.ts:180-182 | the Map's value for an id is the last listing carrying it |
| JobApi.LastWithIdSnoc | lib/job-api.ts:180-182 | a later listing with the same id replaces the value; one with another id leaves it |
| JobApi.DedupProperties | lib/job-api.ts:180-182 | duplicates removed: no longer than the input, distinct ids, only input listings, every input id still represented |
| JobApi.Dedup | lib/job-api.ts:180-182 | one listing per key, in key order, each the listing last seen with that id |
| JobApi.DedupOfUnique | lib/job-api.ts:180-182 | a list whose ids are already distinct is unchanged |
| JobApi.DedupKeepsPlaceTakesLast | lib/job-api.ts:180-182 | for [a, b, c] with a and c sharing an id the result is [c, b]: the first place, the last value |
| JobApi.IndexById | lib/job-api.ts:181 | the map-building loop stores the last listing for each id, with the ids in first-insertion order |
| JobApi.IndexSnoc | lib/job-api.ts:181 | setting one more listing keeps the map holding the last listing per id and the key order equal to the first-occurrence order |
| JobApi.DedupReadOut | lib/job-api.ts:180-182 | reading the map's values in key order gives the deduplicated list |
| JobApi.DedupById | lib/job-api.ts:180-182 | the map-based removal of duplicates equals the specification `Dedup` |
| JobApi.Capped | lib/job-api.ts:184 | at most 50 listings, a prefix of the input, unchanged when already 50 or fewer |
| JobApi.RealJobs | lib/job-api.ts:163-185 | at most 50 listings with pairwise distinct ids, each gathered from a source |
| JobApi.CollectJobs | lib/job-api.ts:167-177 | the pushes gather JSearch's listings, then Adzuna's only when JSearch gave fewer than 20 |
| JobApi.FetchRealJobs | lib/job-api.ts:163-185 | the whole fetch returns what `RealJobs` specifies |
| Ai.ProviderAnswer | lib/ai.ts:63-110 | a missing key for the chosen provider (always Groq when no key is set) fails with "GROQ_API_KEY not found"; a success needs the key; a chat completion answer is trimmed |
| Ai.GetProvider | lib/ai.ts:7-12 | the first provider in the order Groq, OpenAI, Gemini whose key is set; Groq when none is |
| Ai.FirstContent | lib/ai.ts:60 | the content read from the response is empty or has no whitespace at either end |
| Ai.ChatCompletion | lib/ai.ts:27-61 | a completion succeeds only for an ok response with a parsed body, and its text is trimmed |
| Ai.ChatCompletionFailure | lib/ai.ts:54-57 | a non-ok response fails with "API request failed (status): body" |
| Ai.ChatCompletionContent | lib/ai.ts:59-60 | an ok response yields the first choice's trimmed content, or "" without choices |
| Ai.CallAI | lib/ai.ts:97-118 | the chosen provider's text is returned as it is; its failure is rethrown as "Failed to call AI: " followed by the provider's message |
| Ai.OnlyChosenProviderAsked | lib/ai.ts:97-113 | services that agree on the chosen provider give the same result, whatever the other two answer |
| Ai.NoKeysFails | lib/ai.ts:63-117 | with no key set the call fails with "Failed to call AI: GROQ_API_KEY not found" (the wrapper prefix followed by the Groq message) |
| Ai.NoFailover | lib/ai.ts:97-118 | the result depends only on the chosen provider's service; the others are never tried |
| Ai.GroqFailureIsFinal | lib/ai.ts:100-117 | a network failure at Groq is reported, wrapped, without trying another provider |
| Ai.RemoveMarker | lib/ai.ts:153-155 | a global regex removal of a marker and one optional newline never lengthens the text |
| Ai.RemoveMarkerSkips | lib/ai.ts:153-155 | text containing no backtick passes through the removal unchanged |
| Ai.Cleaned | lib/ai.ts:151-156 | the cleaned reply is no longer than the trimmed reply, and a reply not starting with a fence is only trimmed |
| Ai.Unfenced | lib/ai.ts:152-156 | removing the fence markers from a trimmed reply never lengthens it, and a reply not starting with "```" is left as it is |
| Ai.CleanReply | lib/ai.ts:151-156 | the step-by-step cleaner equals `Cleaned` |
| Ai.FencedBody | lib/ai.ts:151-156 | a body fenced as "```json" or "```" and free of backticks comes back with a trailing newline |
| Ai.TaggedFence | lib/ai.ts:152-153 | the "```json" fence around such a body is removed |
| Ai.PlainFence | lib/ai.ts:154-155 | the plain "```" fence around such a body is removed |
| Ai.PlainFenceRemoved | lib/ai.ts:155 | removing "```" and one optional newline strips both ends of a plain fence |
| Ai.ClosingFence | lib/ai.ts:153 | the "```json" pass leaves a closing fence for the "```" pass to remove |
| Ai.WithDefaults | lib/ai.ts:161-168 | field by field: a present, truthy value is kept and a missing or falsy one becomes [] for the four lists, "Mid" for the level and "" for the summary; the level is never empty |
| Ai.AllDefaults | lib/ai.ts:161-168 | an empty object gives empty lists, level "Mid" and an empty summary |
| Ai.GivenFieldsKept | lib/ai.ts:161-168 | a fully populated reply is returned as given |
| Ai.ProfileFromReply | lib/ai.ts:149-182 | a cleaned reply that parses to an object gives that object with its defaults; one that does not gives the fallback profile; the level is never empty |
| Ai.ResumeHead | lib/ai.ts:133 | at most 4000 characters from the start of the resume, all of it when shorter |
| Ai.PromptSeesFirst4000 | lib/ai.ts:130-145 | resumes that agree on their first 4000 characters give the same prompt |
| Ai.PromptBounded | lib/ai.ts:130-145 | the prompt's length is bounded whatever the resume's length |
| Ai.KeywordPrompt | lib/ai.ts:130-145 | the prompt is the fixed opening text, then the head of the resume, then the fixed closing text, each found back by position |
| Ai.KeywordsOutcome | lib/ai.ts:129-183 | the extraction fails exactly when the AI call fails, with the prefixed message; otherwise it is the profile read from the reply |
| Ai.ExtractKeywords | lib/ai.ts:129-183 | the step-by-step extraction equals the specification `KeywordsOutcome` |
| Ai.AiFailurePropagates | lib/ai.ts:147 | a failed AI call is not caught: the extraction fails with the AI's message |
| Ai.UnparsableReplyFallsBack | lib/ai.ts:169-182 | a reply that cannot be parsed gives the fallback profile |
| Ai.ExperienceLevelAlwaysSet | lib/ai.ts:160-178 | every extracted profile has a non-empty experience level |
| Match.ToJob | lib/match.ts:47-57 | the nine shown fields are copied from the listing |
| Match.ToJobDropsOnlyLinkAndDate | lib/match.ts:47-57 | two listings give the same job exactly when they differ at most in link and posting date |
| Match.JobsToMatch | lib/match.ts:47-66 | each fetched listing converted in order, when any were fetched; the mock jobs otherwise |
| Match.RealJobIdsDistinct | lib/match.ts:39-66 | the real jobs to be scored have pairwise distinct ids |
| Match.Clamp | lib/match.ts:117 | the score lies in [0, 100], equals the parsed score inside that range, and is 0 below it and 100 above it |
| Match.ToNumber | lib/match.ts:117 | a JSON number converts to itself; an object and a non-blank text that is not all digits convert to NaN |
| Match.ScoreAsWritten | lib/match.ts:117 | a numeric result lies in [0, 100]; the result is NaN exactly when the converted score is NaN |
| Match.NonNumericScoreEscapes | lib/match.ts:117 | a score written as a word of lower-case letters, such as "abc", comes out as NaN, outside [0, 100] |
| Match.NumericTextConverted | lib/match.ts:117 | a score written as decimal digits is converted to its value and capped at 100 |
| Match.IntendedScore | lib/match.ts:117 | the score as written when that is a number, 0 when it is NaN; always in [0, 100] |
| Match.Entries | lib/match.ts:17-127 | splitting the joined keywords always gives at least one entry |
| Match.EntriesAreTerms | lib/match.ts:17-127 | when no term contains a comma, the entries are exactly the lower-cased terms, in order |
| Match.CountFound | lib/match.ts:125-128 | the number of matching entries never exceeds the number of entries |
| Match.JobText | lib/match.ts:124 | the searched text is the lower-cased title, description and space-joined skills, separated by spaces |
| Match.FallbackScore | lib/match.ts:130-133 | the fallback score lies in [0, 100] and is 50 when there are no skills or technologies |
| Match.FallbackShare | lib/match.ts:130-132 | with skills or technologies present, the score is min(100, 100 × found entries / (skills + technologies)) |
| Match.KeywordMatch | lib/match.ts:123-139 | the fallback keeps the job, gives the reason "Keyword-based match" alone, scores in [0, 100] and 50 without skills or technologies |
| Match.FallbackOneOfTwo | lib/match.ts:124-133 | two counted single-term entries of which only the first appears in the job text score 50 |
| Match.FallbackOfTwo | lib/match.ts:124-133 | with two comma-free terms the score is the share of the two lower-cased, trimmed terms found in the job text, over the skill and technology count, capped at 100 |
| Match.FallbackTwiceOverOne | lib/match.ts:124-133 | one term listed twice but counted once in the total scores 100 when it appears in the job text |
| Match.FallbackCapped | lib/match.ts:124-133 | the profile with skill React and role React, against a job text containing "react", counts two matches over a total of one and is capped at 100 |
| Match.ScoreJob | lib/match.ts:102-139 | the job is kept and the score lies in [0, 100]; a parsed reply gives the clamped score `min(100, max(0, score \|\| 0))` (NaN counted as 0, see Findings) with `reasons \|\| []`; an AI failure or an unparsable reply gives the keyword fallback |
| Match.ParsedScoreCapped | lib/match.ts:117-118 | a parsed score above 100 gives 100, and the reasons the model returned are kept |
| Match.ParsedScoreKept | lib/match.ts:113-119 | a parsed score in [0, 100] is kept exactly, and missing reasons become an empty list |
| Match.CandidateProfile | lib/match.ts:24-30 | the candidate block opens with the joined skills and then the joined tech stack |
| Match.JobDescription | lib/match.ts:72-78 | the job block opens with the title, the company and the description label |
| Match.PromptShowsBlocks | lib/match.ts:80-100 | the scoring prompt contains the whole candidate block and the whole job block |
| Match.PromptShowsSkills | lib/match.ts:24-83 | the scoring prompt shows the candidate's skills on the line before the tech stack |
| Match.PromptShowsTitle | lib/match.ts:72-86 | the scoring prompt shows the job's title on the line before its company |
| Match.Scored | lib/match.ts:70-142 | one result per job, in input order, each for its own job and scored in [0, 100] |
| Match.NoKeysAllFallback | lib/match.ts:102-139 | with no AI key configured, every job gets the keyword fallback |
| Match.InsertByScore | lib/match.ts:145 | placing one entry into the ranking adds exactly one element |
| Match.SortedByScore | lib/match.ts:145 | the ranking has as many entries as its input |
| Match.InsertPermutes | lib/match.ts:145 | placing an entry adds exactly that entry to the multiset |
| Match.InsertKeepsOrder | lib/match.ts:145 | placing an entry into a ranking keeps it non-increasing |
| Match.InsertKeepsTies | lib/match.ts:145 | the placed entry comes after every entry of equal score |
| Match.SortedIsOrdered | lib/match.ts:145 | the ranking is non-increasing in score |
| Match.SortedIsPermutation | lib/match.ts:145 | the ranking is a permutation of the scored jobs |
| Match.SortedIsStable | lib/match.ts:145 | entries of equal score keep their input order (a stable sort) |
| Match.SortedByScoreSnoc | lib/match.ts:145 | ranking one more entry equals placing it into the ranking of the entries before it |
| Match.SortByScore | lib/match.ts:145 | the in-place array sort produces exactly `SortedByScore` of the original contents |
| Match.SortScored | lib/match.ts:145 | sorting the scored jobs in an array gives exactly `SortedByScore` of them |
| Match.InsertLast | lib/match.ts:145 | one insertion step places a[i] into the sorted prefix and leaves the rest of the array alone |
| Match.InsertAt | lib/match.ts:145 | an entry is placed right after the last entry scoring at least as much, ahead of the lower entries behind it |
| Match.Ranked | lib/match.ts:14-146 | the result is non-increasing in score and a permutation of the scored jobs to match |
| Match.MatchJobs | lib/match.ts:14-146 | the whole pipeline returns the stable descending ranking of the scored jobs to match |
| Match.RankedProperties | lib/match.ts:66-145 | one result per job to match, scores in [0, 100], highest first, ties in input order, a permutation of the scored jobs |
| Match.MockWhenNothingFetched | lib/match.ts:66 | when no real job was fetched, the mock jobs are the ones ranked |

## Left out

- Network access, environment variables, logging and the Gemini SDK are not modelled. Responses, keys and `JSON.parse` are inputs.
- URL construction (`encodeURIComponent`, credentials in the query string, request headers) is left out. Only the query text is modelled (`JSearchQuery`, `AdzunaQuery`); the JSearch URL does not use the location.
- `Promise.all` runs the scoring calls concurrently. The model scores the jobs one after another, which gives the same results because the calls are independent.
- Text.Lower: lower-cases ASCII letters only, because full Unicode case mapping is out of scope. Strings are sequences of characters, not UTF-16 code units.
- JobFields.FormatSalary: salaries are whole numbers, so `Math.round` is the identity.
- JobApi.NumberOf: a salary field that is not a JSON number is treated as absent, so `FormatSalary` drops that bound or returns "Not disclosed". The program converts the field instead, through `min * 83` under USD and `Math.round` otherwise, and these outputs are not modelled: numeric text is shown as its number (`job_min_salary: "50000"` gives "₹41,50,000+" with USD and "₹50,000+" with INR); `true` counts as 1 ("₹83+" with USD, "₹1+" with INR); a one-element numeric array counts as its element; `""`, `null` and `false` are falsy like an absent bound, which agrees with the model. Only text that does not convert becomes NaN: with USD it is then dropped (min "abc" and max 100000 give "Up to ₹83,00,000", and "Not disclosed" when no bound remains a usable number), and with any other currency a truthy non-numeric minimum is shown as "₹NaN+".
- Match.Clamp: scores are exact reals, not IEEE doubles.
- Match.ToNumber: only `Number` on whole decimal texts is modelled. A text with a sign, a decimal point, an exponent, a "0x", "0b" or "0o" prefix, the texts "Infinity", "+Infinity" and "-Infinity", and an array of one element convert to NaN in the model where JavaScript gives a number. The reply `{"score": "Infinity"}` scores 100 in the program and 0 in `ScoreJob`.
- Every JSON number is an integer in this model (`JsValue.Json`), for salaries, ids and scores alike. A fractional score is not modelled.
- `Ai.Services` maps a prompt to one outcome, so two jobs with identical scoring prompts get identical replies. A provider that answers the same prompt differently on two calls is not modelled.
- Parsed replies are assumed to have the declared types (string lists, strings). A list that holds non-strings is not modelled.
- Raw item fields other than the description (title, company, city, state, ids) are converted to text when the listing is built. Their original JSON type is not kept in the listing.
- Ai.FirstContent: the message content is assumed to be a string or absent.
- The mock job list (`lib/jobs.ts`) is not part of this model; it is a parameter of `MatchJobs`.
- The UI, the upload and resume-parsing routes and the rest of the repository are not part of this model.

## Findings

| source | as written | input that shows it | evidently intended | confidence | as-written member | corrected member |
|---|---|---|---|---|---|---|
| lib/match.ts:117 | `Math.min(100, Math.max(0, parsed.score \|\| 0))` clamps numbers only. A score that converts to NaN passes both calls as NaN, so `relevanceScore` leaves [0, 100] and the `b - a` comparator no longer gives a defined order. | the reply `{"score": "abc", "reasons": []}` | every relevance score lies in [0, 100] whatever the reply, so a NaN score counts as 0 like an absent one | medium, not executed | Match.NonNumericScoreEscapes | Match.IntendedScore |
