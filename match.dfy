/**
 * Job matching: the jobs to score (fetched listings, or the mock list when
 * none were fetched), each job's relevance score (the model's clamped score,
 * or a keyword-overlap fallback), and the stable ranking by score.
 */
module Match {
  import opened Wrappers
  import opened Text
  import opened JsValue
  import opened JobApi
  import opened Ai

  /** A job as it is scored and shown. */
  datatype Job = Job(
    id: string,
    title: string,
    company: string,
    description: string,
    requiredSkills: seq<string>,
    salaryRange: string,
    experience: string,
    location: string,
    jobType: string)

  datatype JobMatch = JobMatch(job: Job, relevanceScore: real, matchReasons: seq<string>)

  /**
   * What parsing the cleaned scoring reply gave: not JSON, null (reading its
   * score throws), or a value with its `score` property as it came (None when
   * undefined) and its reasons when present and truthy (Some) or not (None).
   */
  datatype ScoreReply =
    | Unparsable
    | ParsedNull
    | Parsed(score: Option<Json>, reasons: Option<seq<string>>)

  // ---------------------------------------------------------------------
  // Jobs to match

  /** A listing as a job: the nine shown fields, without the link and the posting date. */
  function ToJob(listing: JobListing): (job: Job)
    ensures job.id == listing.id && job.title == listing.title && job.company == listing.company
    ensures job.description == listing.description && job.requiredSkills == listing.requiredSkills
    ensures job.salaryRange == listing.salaryRange && job.experience == listing.experience
    ensures job.location == listing.location && job.jobType == listing.jobType
  {
    Job(listing.id, listing.title, listing.company, listing.description, listing.requiredSkills,
      listing.salaryRange, listing.experience, listing.location, listing.jobType)
  }

  /** The fetched listings as jobs when there are any, the mock jobs otherwise. */
  function JobsToMatch(listings: seq<JobListing>, mock: seq<Job>): (jobs: seq<Job>)
    ensures listings == [] ==> jobs == mock
    ensures listings != [] ==> |jobs| == |listings| && forall i :: 0 <= i < |jobs| ==> jobs[i] == ToJob(listings[i])
  {
    if |listings| > 0 then seq(|listings|, i requires 0 <= i < |listings| => ToJob(listings[i])) else mock
  }

  /**
   * Only the link and the posting date are lost: two listings give the same
   * job exactly when they agree on everything else.
   */
  lemma ToJobDropsOnlyLinkAndDate(a: JobListing, b: JobListing)
    ensures ToJob(a) == ToJob(b) <==> a.(url := b.url, postedDate := b.postedDate) == b
  {
  }

  /** Real jobs always carry distinct ids, because the fetched listings do. */
  lemma RealJobIdsDistinct(
    keywords: seq<string>, location: string,
    jsearch: string -> SourceResponse, adzuna: (string, string) -> SourceResponse, mock: seq<Job>)
    requires RealJobs(keywords, location, jsearch, adzuna) != []
    ensures var jobs := JobsToMatch(RealJobs(keywords, location, jsearch, adzuna), mock);
      forall i, j :: 0 <= i < j < |jobs| ==> jobs[i].id != jobs[j].id
  {
  }

  // ---------------------------------------------------------------------
  // Scoring

  function Min(a: real, b: real): real {
    if a <= b then a else b
  }

  /** `Math.min(100, Math.max(0, x))`. */
  function Clamp(x: real): (r: real)
    ensures 0.0 <= r <= 100.0
    ensures 0.0 <= x <= 100.0 ==> r == x
    ensures x < 0.0 ==> r == 0.0
    ensures x > 100.0 ==> r == 100.0
  {
    Min(100.0, if x < 0.0 then 0.0 else x)
  }

  /** A JavaScript number as far as the scoring needs it: a value, or NaN. */
  datatype JsNumber = Num(value: real) | NaN

  /**
   * `Number(v)` on a decoded JSON value: numbers as they are, booleans as 1
   * and 0, a string of decimal digits (blanks around it allowed) as its value
   * and a blank string as 0, the empty array as 0, anything else as NaN.
   */
  function ToNumber(v: Json): (r: JsNumber)
    ensures v.JNum? ==> r == Num(v.n as real)
    ensures v.JStr? && Trim(v.s) != "" && !AllDigits(Trim(v.s)) ==> r == NaN
    ensures v.JObj? ==> r == NaN
  {
    match v
    case JNull => Num(0.0)
    case JBool(b) => Num(if b then 1.0 else 0.0)
    case JNum(n) => Num(n as real)
    case JStr(s) =>
      var t := Trim(s);
      if t == "" then Num(0.0) else if AllDigits(t) then Num(DigitsValue(t) as real) else NaN
    case JArr(items) => if items == [] then Num(0.0) else NaN
    case JObj(_) => NaN
  }

  /** `Math.max(lo, x)`: NaN when x is NaN. */
  function MaxWith(lo: real, x: JsNumber): JsNumber {
    match x
    case NaN => NaN
    case Num(v) => Num(if v < lo then lo else v)
  }

  /** `Math.min(hi, x)`: NaN when x is NaN. */
  function MinWith(hi: real, x: JsNumber): JsNumber {
    match x
    case NaN => NaN
    case Num(v) => Num(Min(hi, v))
  }

  /**
   * The score as written, `Math.min(100, Math.max(0, parsed.score || 0))`: a
   * number is clamped into [0, 100], but a value that converts to NaN passes
   * through both calls as NaN.
   */
  function ScoreAsWritten(score: Option<Json>): (r: JsNumber)
    ensures r.Num? ==> 0.0 <= r.value <= 100.0
    ensures r.NaN? <==> ToNumber(if Truthy(score) then score.value else JNum(0)).NaN?
  {
    MinWith(100.0, MaxWith(0.0, ToNumber(if Truthy(score) then score.value else JNum(0))))
  }

  /**
   * A score the model wrote as a word of lower-case letters, such as "abc",
   * escapes the clamp as NaN: `Number` accepts no such text (its one word,
   * "Infinity", is capitalised).
   */
  lemma NonNumericScoreEscapes(text: string)
    requires text != [] && forall k :: 0 <= k < |text| ==> 'a' <= text[k] <= 'z'
    ensures ScoreAsWritten(Some(JStr(text))) == NaN
  {
    assert !IsSpace(text[0]) && !IsSpace(text[|text| - 1]) && !IsDigit(text[0]);
    TrimUnchanged(text);
    assert !AllDigits(Trim(text));
  }

  /** A score the model wrote as a decimal text is converted to its value and then clamped. */
  lemma NumericTextConverted(n: nat)
    ensures ScoreAsWritten(Some(JStr(NatToString(n)))) == Num(if n <= 100 then n as real else 100.0)
  {
    var text := NatToString(n);
    assert IsDigit(text[0]) && IsDigit(text[|text| - 1]);
    TrimUnchanged(text);
    NatToStringValue(n);
  }

  /**
   * The score as intended: the converted score clamped into [0, 100], with a
   * value that converts to NaN counted as 0 like an absent one.
   */
  function IntendedScore(score: Option<Json>): (r: real)
    ensures 0.0 <= r <= 100.0
    ensures ScoreAsWritten(score).Num? ==> r == ScoreAsWritten(score).value
    ensures ScoreAsWritten(score).NaN? ==> r == 0.0
  {
    match ToNumber(if Truthy(score) then score.value else JNum(0))
    case Num(x) => Clamp(x)
    case NaN => 0.0
  }

  /** The fallback's keyword entries: all four lists joined by ", ", lower-cased and split on ", ". */
  function Entries(p: Profile): (entries: seq<string>)
    ensures |entries| >= 1
  {
    Split(Lower(Join(p.skills + p.techStack + p.roles + p.keywords, ", ")), ", ")
  }

  /** The lower-cased text the fallback searches: title, description and required skills. */
  function JobText(job: Job): (text: string)
    ensures text == Lower(job.title) + " " + Lower(job.description) + " " + Lower(Join(job.requiredSkills, " "))
  {
    var skills := Join(job.requiredSkills, " ");
    LowerAppend(job.title + " " + job.description + " ", skills);
    LowerAppend(job.title + " " + job.description, " ");
    LowerAppend(job.title + " ", job.description);
    LowerAppend(job.title, " ");
    assert Lower(" ") == " ";
    Lower(job.title + " " + job.description + " " + skills)
  }

  /** How many entries, trimmed, occur in text. */
  function CountFound(entries: seq<string>, text: string): (n: nat)
    ensures n <= |entries|
  {
    if entries == [] then 0
    else (if Contains(text, Trim(entries[0])) then 1 else 0) + CountFound(entries[1..], text)
  }

  /** count / total as a percentage. */
  function Percent(count: nat, total: nat): (r: real)
    requires total > 0
    ensures r >= 0.0
  {
    var share := count as real / total as real;
    assert share >= 0.0 by { ShareNonnegative(count, total); }
    share * 100.0
  }

  lemma ShareNonnegative(count: nat, total: nat)
    requires total > 0
    ensures count as real / total as real >= 0.0
  {
  }

  /**
   * The keyword fallback: the share of found entries over the number of
   * skills and technologies, as a percentage capped at 100, and 50 when
   * there are no skills or technologies.
   */
  function FallbackScore(p: Profile, job: Job): (score: real)
    ensures 0.0 <= score <= 100.0
    ensures |p.skills| + |p.techStack| == 0 ==> score == 50.0
  {
    var total := |p.skills| + |p.techStack|;
    if total > 0 then Min(100.0, Percent(CountFound(Entries(p), JobText(job)), total)) else 50.0
  }

  /** With skills or technologies present, the score is the capped percentage of entries found. */
  lemma FallbackShare(p: Profile, job: Job)
    requires |p.skills| + |p.techStack| > 0
    ensures FallbackScore(p, job) == Min(100.0, Percent(CountFound(Entries(p), JobText(job)), |p.skills| + |p.techStack|))
  {
  }

  /** The fallback result: the job unchanged, its fallback score, and the single reason "Keyword-based match". */
  function KeywordMatch(p: Profile, job: Job): (m: JobMatch)
    ensures m.job == job && m.matchReasons == ["Keyword-based match"]
    ensures 0.0 <= m.relevanceScore <= 100.0
    ensures |p.skills| + |p.techStack| == 0 ==> m.relevanceScore == 50.0
  {
    JobMatch(job, FallbackScore(p, job), ["Keyword-based match"])
  }

  /**
   * The score of one job: the intended score of the parsed `score` (absent,
   * falsy or NaN counting as 0) with the parsed reasons or none; the keyword
   * fallback when the AI call fails or the reply cannot be parsed or read.
   */
  function ScoreJob(p: Profile, job: Job, reply: Result<string>, parse: string -> ScoreReply): (m: JobMatch)
    ensures m.job == job
    ensures 0.0 <= m.relevanceScore <= 100.0
    ensures reply.Err? ==> m == KeywordMatch(p, job)
    ensures reply.Ok? && !parse(Cleaned(reply.value)).Parsed? ==> m == KeywordMatch(p, job)
    ensures reply.Ok? && parse(Cleaned(reply.value)).Parsed? ==>
      var r := parse(Cleaned(reply.value));
      m == JobMatch(job, IntendedScore(r.score), if r.reasons.Some? then r.reasons.value else [])
  {
    match reply
    case Err(_) => KeywordMatch(p, job)
    case Ok(text) =>
      match parse(Cleaned(text))
      case Parsed(score, reasons) =>
        JobMatch(job, IntendedScore(score), if reasons.Some? then reasons.value else [])
      case _ => KeywordMatch(p, job)
  }

  /** A parsed score inside [0, 100] is kept exactly; missing reasons become none. */
  lemma ParsedScoreKept(p: Profile, job: Job, text: string, parse: string -> ScoreReply, score: int)
    requires 0 <= score <= 100 && parse(Cleaned(text)) == Parsed(Some(JNum(score)), None)
    ensures ScoreJob(p, job, Ok(text), parse) == JobMatch(job, score as real, [])
  {
  }

  /** A parsed score above 100 is capped at 100, and the reasons the model gave are kept. */
  lemma ParsedScoreCapped(p: Profile, job: Job, text: string, parse: string -> ScoreReply, score: int, reasons: seq<string>)
    requires score > 100 && parse(Cleaned(text)) == Parsed(Some(JNum(score)), Some(reasons))
    ensures ScoreJob(p, job, Ok(text), parse) == JobMatch(job, 100.0, reasons)
  {
  }

  /** When every term is free of commas, the entries are exactly the lower-cased terms. */
  lemma EntriesAreTerms(p: Profile)
    requires |p.skills + p.techStack + p.roles + p.keywords| >= 1
    requires forall t :: t in p.skills + p.techStack + p.roles + p.keywords ==> ',' !in t
    ensures var all := p.skills + p.techStack + p.roles + p.keywords;
      Entries(p) == seq(|all|, i requires 0 <= i < |all| => Lower(all[i]))
  {
    var all := p.skills + p.techStack + p.roles + p.keywords;
    var lowered := seq(|all|, i requires 0 <= i < |all| => Lower(all[i]));
    LowerJoin(all, ", ");
    assert Lower(", ") == ", ";
    forall t | t in lowered
      ensures ", "[0] !in t
    {
      var i :| 0 <= i < |all| && lowered[i] == t;
      assert all[i] in all;
      forall k | 0 <= k < |t|
        ensures t[k] != ','
      {
        assert all[i][k] != ',';
      }
    }
    SplitJoin(lowered, ", ");
  }

  /** Two comma-free terms give the two lower-cased entries. */
  lemma TwoEntries(p: Profile, t0: string, t1: string)
    requires p.skills + p.techStack + p.roles + p.keywords == [t0, t1]
    requires ',' !in t0 && ',' !in t1
    ensures Entries(p) == [Lower(t0), Lower(t1)]
  {
    EntriesAreTerms(p);
  }

  lemma CountTwo(e0: string, e1: string, text: string)
    ensures CountFound([e0, e1], text)
      == (if Contains(text, Trim(e0)) then 1 else 0) + (if Contains(text, Trim(e1)) then 1 else 0)
  {
    assert [e0, e1][1..] == [e1];
    assert [e1][1..] == [];
  }

  /** Lower-casing "React" character by character. */
  lemma LowerReact()
    ensures Lower("React") == "react"
  {
    var q := Lower("React");
    assert q[0] == 'r' && q[1] == 'e' && q[2] == 'a' && q[3] == 'c' && q[4] == 't';
  }

  /** The fallback score of a profile with two comma-free terms, one of them a skill or technology. */
  lemma FallbackOfTwo(p: Profile, job: Job, t0: string, t1: string)
    requires p.skills + p.techStack + p.roles + p.keywords == [t0, t1]
    requires ',' !in t0 && ',' !in t1
    requires |p.skills| + |p.techStack| > 0
    ensures FallbackScore(p, job) == Min(100.0, Percent(
      (if Contains(JobText(job), Trim(Lower(t0))) then 1 else 0) + (if Contains(JobText(job), Trim(Lower(t1))) then 1 else 0),
      |p.skills| + |p.techStack|))
  {
    TwoEntries(p, t0, t1);
    CountTwo(Lower(t0), Lower(t1), JobText(job));
    FallbackShare(p, job);
  }

  /** Two single-term entries, both counted in the total, of which only the first is found. */
  lemma FallbackOneOfTwo(p: Profile, job: Job, t0: string, t1: string)
    requires p.skills + p.techStack + p.roles + p.keywords == [t0, t1] && |p.skills| + |p.techStack| == 2
    requires ',' !in t0 && ',' !in t1
    requires Contains(JobText(job), Trim(Lower(t0))) && !Contains(JobText(job), Trim(Lower(t1)))
    ensures FallbackScore(p, job) == 50.0
  {
    FallbackOfTwo(p, job, t0, t1);
    assert Min(100.0, Percent(1 + 0, 2)) == 50.0;
  }

  /** A term listed once as a skill and once as a role counts twice over a total of one. */
  lemma FallbackTwiceOverOne(p: Profile, job: Job, t: string)
    requires p.skills + p.techStack + p.roles + p.keywords == [t, t]
    requires |p.skills| + |p.techStack| == 1
    requires ',' !in t && Contains(JobText(job), Trim(Lower(t)))
    ensures FallbackScore(p, job) == 100.0
  {
    FallbackOfTwo(p, job, t, t);
    assert Percent(2, 1) == 200.0;
  }

  /** Roles and keywords count in the numerator only, so the share can pass 100 and the cap is reached. */
  lemma FallbackCapped(p: Profile, job: Job)
    requires p.skills == ["React"] && p.techStack == [] && p.roles == ["React"] && p.keywords == []
    requires Contains(JobText(job), "react")
    ensures FallbackScore(p, job) == 100.0
  {
    ReactTwice(p);
    ReactTerm();
    FallbackTwiceOverOne(p, job, "React");
  }
  /** The profile of FallbackCapped lists React twice, once in the total. */
  lemma ReactTwice(p: Profile)
    requires p.skills == ["React"] && p.techStack == [] && p.roles == ["React"] && p.keywords == []
    ensures p.skills + p.techStack + p.roles + p.keywords == ["React", "React"]
    ensures |p.skills| + |p.techStack| == 1
  {
  }
  /** "React" has no comma and is found as "react". */
  lemma ReactTerm()
    ensures ',' !in "React" && Trim(Lower("React")) == "react"
  {
    assert "React" == ['R', 'e', 'a', 'c', 't'];
    assert ',' !in "React";
    LowerReact();
    var r := "react";
    assert !IsSpace(r[0]) && !IsSpace(r[|r| - 1]);
    TrimUnchanged(r);
  }

  // ---------------------------------------------------------------------
  // Prompts

  /** The candidate block of the scoring prompt. */
  function CandidateProfile(p: Profile): (block: string)
    ensures StartsWith(block, "\nSkills: " + Join(p.skills, ", ") + "\nTech Stack: " + Join(p.techStack, ", "))
  {
    "\nSkills: " + Join(p.skills, ", ") + "\nTech Stack: " + Join(p.techStack, ", ")
      + "\nExperience Level: " + p.experienceLevel + "\nRoles: " + Join(p.roles, ", ")
      + "\nSummary: " + p.summary + "\n"
  }

  /** The job block of the scoring prompt. */
  function JobDescription(job: Job): (block: string)
    ensures StartsWith(block, "\nTitle: " + job.title + "\nCompany: " + job.company + "\nDescription: ")
  {
    "\nTitle: " + job.title + "\nCompany: " + job.company + "\nDescription: " + job.description
      + "\nRequired Skills: " + Join(job.requiredSkills, ", ") + "\nExperience: " + job.experience + "\n"
  }

  const ScoringHead := "You are a job matching expert. Rate how well this candidate matches the job on a scale of 0-100.\n\nCandidate Profile:\n"
  const ScoringMiddle := "\n\nJob Description:\n"
  const ScoringTail := "\n\nReturn ONLY a JSON object with this exact structure:\n{\n  \"score\": 85,\n  \"reasons\": [\"reason1\", \"reason2\", \"reason3\"]\n}\n\nThe score should reflect:\n- Skill overlap (40%)\n- Experience level match (20%)\n- Role alignment (20%)\n- Tech stack compatibility (20%)\n\nReturn ONLY the JSON, no markdown, no explanation."

  /** The scoring prompt: the candidate block and then the job block, between fixed instructions. */
  function ScoringPrompt(p: Profile, job: Job): (prompt: string)
  {
    ScoringHead + CandidateProfile(p) + ScoringMiddle + JobDescription(job) + ScoringTail
  }

  /** The scoring prompt shows the whole candidate block and the whole job block. */
  lemma PromptShowsBlocks(p: Profile, job: Job)
    ensures Contains(ScoringPrompt(p, job), CandidateProfile(p))
    ensures Contains(ScoringPrompt(p, job), JobDescription(job))
  {
    ShowsBoth(ScoringHead, CandidateProfile(p), ScoringMiddle, JobDescription(job), ScoringTail);
  }

  /** Both blocks of a five-part text occur in it. */
  lemma ShowsBoth(head: string, first: string, middle: string, second: string, tail: string)
    ensures Contains(head + first + middle + second + tail, first)
    ensures Contains(head + first + middle + second + tail, second)
  {
    ContainsAfter(head, first, first);
    ContainsExtend(head + first, middle + second + tail, first);
    assert head + first + (middle + second + tail) == head + first + middle + second + tail;
    ContainsAfter(head + first + middle, second, second);
    ContainsExtend(head + first + middle + second, tail, second);
  }

  lemma ContainsAfter(a: string, b: string, part: string)
    requires part <= b
    ensures Contains(a + b, part)
  {
    assert (a + b)[|a|..] == b;
  }

  lemma ContainsExtend(a: string, b: string, part: string)
    requires Contains(a, part)
    ensures Contains(a + b, part)
  {
    var i :| 0 <= i <= |a| - |part| && part <= a[i..];
    assert (a + b)[i..] == a[i..] + b;
  }

  /** The scoring prompt shows the candidate's skills on the line before the tech stack. */
  lemma PromptShowsSkills(p: Profile, job: Job)
    ensures Contains(ScoringPrompt(p, job), "\nSkills: " + Join(p.skills, ", ") + "\nTech Stack: ")
  {
    var line := "\nSkills: " + Join(p.skills, ", ") + "\nTech Stack: ";
    var cp := CandidateProfile(p);
    assert line <= cp;
    ContainsAfter(ScoringHead, cp, line);
    ContainsExtend(ScoringHead + cp, ScoringMiddle, line);
    ContainsExtend(ScoringHead + cp + ScoringMiddle, JobDescription(job), line);
    ContainsExtend(ScoringHead + cp + ScoringMiddle + JobDescription(job), ScoringTail, line);
  }

  /** The scoring prompt shows the job's title on the line before its company. */
  lemma PromptShowsTitle(p: Profile, job: Job)
    ensures Contains(ScoringPrompt(p, job), "\nTitle: " + job.title + "\nCompany: ")
  {
    var line := "\nTitle: " + job.title + "\nCompany: ";
    var jd := JobDescription(job);
    assert line <= jd;
    ContainsAfter(ScoringHead + CandidateProfile(p) + ScoringMiddle, jd, line);
    ContainsExtend(ScoringHead + CandidateProfile(p) + ScoringMiddle + jd, ScoringTail, line);
  }

  /** Every job scored, in input order, each through its own AI call. */
  function Scored(p: Profile, jobs: seq<Job>, env: Env, svc: Services, parse: string -> ScoreReply): (scored: seq<JobMatch>)
    ensures |scored| == |jobs|
    ensures forall i :: 0 <= i < |jobs| ==> scored[i].job == jobs[i] && 0.0 <= scored[i].relevanceScore <= 100.0
  {
    seq(|jobs|, i requires 0 <= i < |jobs| => ScoreJob(p, jobs[i], CallAI(env, svc, ScoringPrompt(p, jobs[i])), parse))
  }

  /** With no AI key configured every job gets the keyword fallback. */
  lemma NoKeysAllFallback(p: Profile, jobs: seq<Job>, env: Env, svc: Services, parse: string -> ScoreReply)
    requires env.groqKey == "" && env.openaiKey == "" && env.googleKey == ""
    ensures forall i :: 0 <= i < |jobs| ==> Scored(p, jobs, env, svc, parse)[i] == KeywordMatch(p, jobs[i])
  {
    forall i | 0 <= i < |jobs|
      ensures Scored(p, jobs, env, svc, parse)[i] == KeywordMatch(p, jobs[i])
    {
      NoKeysFails(env, svc, ScoringPrompt(p, jobs[i]));
    }
  }

  // ---------------------------------------------------------------------
  // Ranking

  predicate NonIncreasing(s: seq<JobMatch>) {
    forall i, j :: 0 <= i < j < |s| ==> s[i].relevanceScore >= s[j].relevanceScore
  }

  /** The entries with score v, in order. */
  function WithScore(s: seq<JobMatch>, v: real): seq<JobMatch> {
    if s == [] then [] else WithScore(s[..|s| - 1], v) + (if s[|s| - 1].relevanceScore == v then [s[|s| - 1]] else [])
  }

  lemma {:induction false} WithScoreAppend(a: seq<JobMatch>, b: seq<JobMatch>, v: real)
    ensures WithScore(a + b, v) == WithScore(a, v) + WithScore(b, v)
    decreases |b|
  {
    if b == [] {
      assert a + b == a;
    } else {
      var init := b[..|b| - 1];
      assert (a + b)[..|a + b| - 1] == a + init;
      WithScoreAppend(a, init, v);
    }
  }

  /** x placed into t after every entry scoring at least as much, found scanning from the end. */
  function InsertByScore(t: seq<JobMatch>, x: JobMatch): (r: seq<JobMatch>)
    ensures |r| == |t| + 1
  {
    if t == [] then [x]
    else if t[|t| - 1].relevanceScore >= x.relevanceScore then t + [x]
    else InsertByScore(t[..|t| - 1], x) + [t[|t| - 1]]
  }

  lemma {:induction false} InsertPermutes(t: seq<JobMatch>, x: JobMatch)
    ensures multiset(InsertByScore(t, x)) == multiset(t) + multiset{x}
    decreases |t|
  {
    if t != [] && t[|t| - 1].relevanceScore < x.relevanceScore {
      var init := t[..|t| - 1];
      InsertPermutes(init, x);
      assert t == init + [t[|t| - 1]];
    }
  }

  lemma SortedByScoreSnoc(s: seq<JobMatch>, i: nat)
    requires i < |s|
    ensures SortedByScore(s[..i + 1]) == InsertByScore(SortedByScore(s[..i]), s[i])
  {
    assert s[..i + 1][..i] == s[..i];
  }

  /** The stable descending order by score: each entry inserted in turn after the entries already placed. */
  function SortedByScore(s: seq<JobMatch>): (r: seq<JobMatch>)
    ensures |r| == |s|
  {
    if s == [] then [] else InsertByScore(SortedByScore(s[..|s| - 1]), s[|s| - 1])
  }

  lemma {:induction false} InsertKeepsOrder(t: seq<JobMatch>, x: JobMatch)
    requires NonIncreasing(t)
    ensures NonIncreasing(InsertByScore(t, x))
    decreases |t|
  {
    if t != [] && t[|t| - 1].relevanceScore < x.relevanceScore {
      var init, last := t[..|t| - 1], t[|t| - 1];
      InsertKeepsOrder(init, x);
      InsertedAtLeast(init, x, last.relevanceScore);
      AppendLowest(InsertByScore(init, x), last);
    }
  }

  /** Placing an entry among entries that all score at least `bound` keeps them all at least `bound`. */
  lemma InsertedAtLeast(t: seq<JobMatch>, x: JobMatch, bound: real)
    requires forall k :: 0 <= k < |t| ==> t[k].relevanceScore >= bound
    requires x.relevanceScore >= bound
    ensures forall e :: e in InsertByScore(t, x) ==> e.relevanceScore >= bound
  {
    InsertPermutes(t, x);
    var r := InsertByScore(t, x);
    forall e | e in r
      ensures e.relevanceScore >= bound
    {
      assert e in multiset(r);
      if e != x {
        assert e in multiset(t);
        var k :| 0 <= k < |t| && t[k] == e;
      }
    }
  }

  /** Appending an entry that scores no more than any before it keeps the order. */
  lemma AppendLowest(r: seq<JobMatch>, last: JobMatch)
    requires NonIncreasing(r)
    requires forall e :: e in r ==> e.relevanceScore >= last.relevanceScore
    ensures NonIncreasing(r + [last])
  {
    var s := r + [last];
    forall i, j | 0 <= i < j < |s|
      ensures s[i].relevanceScore >= s[j].relevanceScore
    {
      assert s[i] == r[i] && r[i] in r;
    }
  }

  lemma {:induction false} InsertKeepsTies(t: seq<JobMatch>, x: JobMatch, v: real)
    ensures WithScore(InsertByScore(t, x), v) == WithScore(t, v) + WithScore([x], v)
    decreases |t|
  {
    assert [x][..0] == [];
    if t == [] {
    } else if t[|t| - 1].relevanceScore >= x.relevanceScore {
      WithScoreAppend(t, [x], v);
    } else {
      var init := t[..|t| - 1];
      var last := t[|t| - 1];
      assert t == init + [last];
      assert [last][..0] == [];
      InsertKeepsTies(init, x, v);
      WithScoreAppend(InsertByScore(init, x), [last], v);
      WithScoreAppend(init, [last], v);
      assert WithScore(InsertByScore(t, x), v)
        == WithScore(init, v) + WithScore([x], v) + WithScore([last], v);
    }
  }

  /** The ranking is sorted non-increasingly by score. */
  lemma {:induction false} SortedIsOrdered(s: seq<JobMatch>)
    ensures NonIncreasing(SortedByScore(s))
  {
    if s != [] {
      SortedIsOrdered(s[..|s| - 1]);
      InsertKeepsOrder(SortedByScore(s[..|s| - 1]), s[|s| - 1]);
    }
  }

  /** The ranking holds exactly the entries it was given. */
  lemma {:induction false} SortedIsPermutation(s: seq<JobMatch>)
    ensures multiset(SortedByScore(s)) == multiset(s)
  {
    if s != [] {
      var init, last := s[..|s| - 1], s[|s| - 1];
      assert s == init + [last];
      assert multiset(s) == multiset(init) + multiset{last};
      SortedIsPermutation(init);
      InsertPermutes(SortedByScore(init), last);
    }
  }

  /** Entries of equal score keep their input order. */
  lemma {:induction false} SortedIsStable(s: seq<JobMatch>, v: real)
    ensures WithScore(SortedByScore(s), v) == WithScore(s, v)
  {
    if s != [] {
      var init := s[..|s| - 1];
      SortedIsStable(init, v);
      InsertKeepsTies(SortedByScore(init), s[|s| - 1], v);
    }
  }

  lemma InsertAfterHigher(t: seq<JobMatch>, x: JobMatch, j: nat)
    requires j <= |t| && (j == 0 || t[j - 1].relevanceScore >= x.relevanceScore)
    ensures InsertByScore(t[..j], x) == t[..j] + [x]
  {
  }

  /** Inserting lands right after the last entry scoring at least as much, past every lower entry behind it. */
  lemma {:induction false} InsertAt(t: seq<JobMatch>, x: JobMatch, j: nat)
    requires j <= |t| && (j == 0 || t[j - 1].relevanceScore >= x.relevanceScore)
    requires forall k :: j <= k < |t| ==> t[k].relevanceScore < x.relevanceScore
    ensures InsertByScore(t, x) == t[..j] + [x] + t[j..]
    decreases |t|
  {
    if |t| == j {
      InsertAfterHigher(t, x, j);
      assert t[..j] == t && t[j..] == [];
    } else {
      var init, last := t[..|t| - 1], t[|t| - 1];
      InsertAt(init, x, j);
      assert init[..j] == t[..j];
      assert t[j..] == init[j..] + [last];
    }
  }

  /**
   * `scoredJobs.sort((a, b) => b.relevanceScore - a.relevanceScore)`: a
   * stable in-place sort, highest score first.
   */
  method SortByScore(a: array<JobMatch>)
    modifies a
    ensures a[..] == SortedByScore(old(a[..]))
  {
    ghost var input := a[..];
    for i := 0 to a.Length
      invariant a[..i] == SortedByScore(input[..i])
      invariant a[i..] == input[i..]
    {
      InsertLast(a, i);
      SortedByScoreSnoc(input, i);
      assert a[i + 1..] == input[i + 1..];
    }
    assert input[..a.Length] == input;
  }

  /** Moves a[i] left past the entries before it that score less, shifting them right by one. */
  method InsertLast(a: array<JobMatch>, i: nat)
    requires i < a.Length
    modifies a
    ensures a[..i + 1] == InsertByScore(old(a[..i]), old(a[i]))
    ensures a[i + 1..] == old(a[i + 1..])
  {
    ghost var prefix := a[..i];
    ghost var rest := a[i + 1..];
    var x := a[i];
    var j := i;
    assert prefix[..j] == prefix && prefix[j..] == [];
    assert a[..] == a[..i] + [a[i]] + a[i + 1..];
    while j > 0 && a[j - 1].relevanceScore < x.relevanceScore
      invariant 0 <= j <= i
      invariant a[..] == prefix[..j] + [x] + prefix[j..] + rest
      invariant forall k :: j <= k < i ==> prefix[k].relevanceScore < x.relevanceScore
      decreases j
    {
      ghost var before := a[..];
      a[j - 1], a[j] := a[j], a[j - 1];
      SwapStep(before, a[..], prefix, rest, x, j);
      j := j - 1;
    }
    InsertAt(prefix, x, j);
    Placed(a[..], prefix, rest, x, j);
  }

  /** Swapping the inserted entry with the lower one before it moves it down by one place. */
  lemma SwapStep(before: seq<JobMatch>, after: seq<JobMatch>, prefix: seq<JobMatch>, rest: seq<JobMatch>, x: JobMatch, j: nat)
    requires 0 < j <= |prefix| && before == prefix[..j] + [x] + prefix[j..] + rest
    requires after == before[j - 1 := before[j]][j := before[j - 1]]
    ensures before[j - 1] == prefix[j - 1]
    ensures after == prefix[..j - 1] + [x] + prefix[j - 1..] + rest
  {
    assert before[j - 1] == prefix[j - 1] && before[j] == x;
    var want := prefix[..j - 1] + [x] + prefix[j - 1..] + rest;
    assert |after| == |want|;
    forall k | 0 <= k < |want|
      ensures after[k] == want[k]
    {
      if k < j - 1 {
        assert before[k] == prefix[k];
      } else if k > j {
        assert before[k] == want[k];
      }
    }
  }

  /** Once the inserted entry has stopped, the first i + 1 places hold the insertion and the rest is untouched. */
  lemma Placed(s: seq<JobMatch>, prefix: seq<JobMatch>, rest: seq<JobMatch>, x: JobMatch, j: nat)
    requires j <= |prefix| && s == prefix[..j] + [x] + prefix[j..] + rest
    ensures s[..|prefix| + 1] == prefix[..j] + [x] + prefix[j..]
    ensures s[|prefix| + 1..] == rest
  {
    assert |prefix[..j] + [x] + prefix[j..]| == |prefix| + 1;
  }

  // ---------------------------------------------------------------------
  // matchJobs

  /** What matchJobs returns. */
  function Ranked(
    p: Profile, env: Env, svc: Services,
    jsearch: string -> SourceResponse, adzuna: (string, string) -> SourceResponse,
    parse: string -> ScoreReply, mock: seq<Job>): (ranked: seq<JobMatch>)
    ensures var jobs := JobsToMatch(RealJobs(p.skills + p.techStack, "India", jsearch, adzuna), mock);
      NonIncreasing(ranked) && multiset(ranked) == multiset(Scored(p, jobs, env, svc, parse))
  {
    var jobs := JobsToMatch(RealJobs(p.skills + p.techStack, "India", jsearch, adzuna), mock);
    SortedIsOrdered(Scored(p, jobs, env, svc, parse));
    SortedIsPermutation(Scored(p, jobs, env, svc, parse));
    SortedByScore(Scored(p, jobs, env, svc, parse))
  }

  /**
   * matchJobs as written: fetch real jobs for the skills and technologies,
   * fall back to the mock jobs when none came, score each job and sort the
   * scored jobs in place.
   */
  method MatchJobs(
    p: Profile, env: Env, svc: Services,
    jsearch: string -> SourceResponse, adzuna: (string, string) -> SourceResponse,
    parse: string -> ScoreReply, mock: seq<Job>)
    returns (ranked: seq<JobMatch>)
    ensures ranked == Ranked(p, env, svc, jsearch, adzuna, parse, mock)
  {
    var jobListings: seq<Job> := [];
    var realJobs := FetchRealJobs(p.skills + p.techStack, "India", jsearch, adzuna);
    jobListings := seq(|realJobs|, i requires 0 <= i < |realJobs| => ToJob(realJobs[i]));
    var jobsToMatch := if |jobListings| > 0 then jobListings else mock;
    assert jobsToMatch == JobsToMatch(realJobs, mock);
    var scored := Scored(p, jobsToMatch, env, svc, parse);
    ranked := SortScored(scored);
  }

  /** `scoredJobs.sort(...)`: copy the scored jobs into an array and sort it in place. */
  method SortScored(scored: seq<JobMatch>) returns (ranked: seq<JobMatch>)
    ensures ranked == SortedByScore(scored)
  {
    var a := new JobMatch[|scored|](i requires 0 <= i < |scored| => scored[i]);
    assert a[..] == scored;
    SortByScore(a);
    ranked := a[..];
  }

  /**
   * The ranking holds one entry per job to match, each scored in [0, 100],
   * highest first, with ties in input order.
   */
  lemma RankedProperties(
    p: Profile, env: Env, svc: Services,
    jsearch: string -> SourceResponse, adzuna: (string, string) -> SourceResponse,
    parse: string -> ScoreReply, mock: seq<Job>)
    ensures var jobs := JobsToMatch(RealJobs(p.skills + p.techStack, "India", jsearch, adzuna), mock);
      var ranked := Ranked(p, env, svc, jsearch, adzuna, parse, mock);
      && |ranked| == |jobs|
      && NonIncreasing(ranked)
      && multiset(ranked) == multiset(Scored(p, jobs, env, svc, parse))
      && (forall v :: WithScore(ranked, v) == WithScore(Scored(p, jobs, env, svc, parse), v))
      && (forall m :: m in ranked ==> 0.0 <= m.relevanceScore <= 100.0)
  {
    var jobs := JobsToMatch(RealJobs(p.skills + p.techStack, "India", jsearch, adzuna), mock);
    var scored := Scored(p, jobs, env, svc, parse);
    ScoredInRange(p, jobs, env, svc, parse);
    SortedProperties(scored);
  }

  lemma ScoredInRange(p: Profile, jobs: seq<Job>, env: Env, svc: Services, parse: string -> ScoreReply)
    ensures forall m :: m in Scored(p, jobs, env, svc, parse) ==> 0.0 <= m.relevanceScore <= 100.0
  {
    var scored := Scored(p, jobs, env, svc, parse);
    forall m | m in scored
      ensures 0.0 <= m.relevanceScore <= 100.0
    {
      var i :| 0 <= i < |scored| && scored[i] == m;
    }
  }

  /** The sorted entries: as many, highest first, a permutation, ties in input order, scores kept in range. */
  lemma SortedProperties(scored: seq<JobMatch>)
    requires forall m :: m in scored ==> 0.0 <= m.relevanceScore <= 100.0
    ensures var ranked := SortedByScore(scored);
      && |ranked| == |scored|
      && NonIncreasing(ranked)
      && multiset(ranked) == multiset(scored)
      && (forall v :: WithScore(ranked, v) == WithScore(scored, v))
      && (forall m :: m in ranked ==> 0.0 <= m.relevanceScore <= 100.0)
  {
    SortedIsOrdered(scored);
    SortedIsPermutation(scored);
    forall v
      ensures WithScore(SortedByScore(scored), v) == WithScore(scored, v)
    {
      SortedIsStable(scored, v);
    }
    var ranked := SortedByScore(scored);
    assert |ranked| == |multiset(ranked)| == |multiset(scored)| == |scored|;
    forall m | m in ranked
      ensures 0.0 <= m.relevanceScore <= 100.0
    {
      assert m in multiset(scored);
    }
  }

  /** When nothing was fetched, the mock jobs are the ones ranked. */
  lemma MockWhenNothingFetched(
    p: Profile, env: Env, svc: Services,
    jsearch: string -> SourceResponse, adzuna: (string, string) -> SourceResponse,
    parse: string -> ScoreReply, mock: seq<Job>)
    requires RealJobs(p.skills + p.techStack, "India", jsearch, adzuna) == []
    ensures Ranked(p, env, svc, jsearch, adzuna, parse, mock) == SortedByScore(Scored(p, mock, env, svc, parse))
  {
  }
}
