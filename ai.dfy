/**
 * The AI gateway and the resume profile extraction: which provider is
 * asked, how a chat-completion answer becomes text, how failures are
 * reported, how code-fence markup is stripped from a reply, and how the
 * parsed profile gets its defaults.
 *
 * The configured API keys are a record of strings (the empty string meaning
 * unset), and every provider exchange is an input: a function from the
 * prompt to what the HTTP request (or, for Gemini, the SDK call) produced.
 */
module Ai {
  import opened Wrappers
  import opened Text

  // ---------------------------------------------------------------------
  // Provider choice

  datatype Provider = Groq | OpenAI | Gemini

  /** The three API keys; an empty string is an unset variable (both are falsy). */
  datatype Env = Env(groqKey: string, openaiKey: string, googleKey: string)

  function KeyOf(env: Env, p: Provider): string {
    match p
    case Groq => env.groqKey
    case OpenAI => env.openaiKey
    case Gemini => env.googleKey
  }

  /** Position in the fixed priority order Groq, OpenAI, Gemini. */
  function Rank(p: Provider): nat {
    match p
    case Groq => 0
    case OpenAI => 1
    case Gemini => 2
  }

  /**
   * The provider asked: the first one in priority order whose key is set,
   * and Groq when no key is set at all.
   */
  function GetProvider(env: Env): (p: Provider)
    ensures KeyOf(env, p) != "" || (p == Groq && forall q :: KeyOf(env, q) == "")
    ensures forall q :: Rank(q) < Rank(p) ==> KeyOf(env, q) == ""
  {
    if env.groqKey != "" then Groq
    else if env.openaiKey != "" then OpenAI
    else if env.googleKey != "" then Gemini
    else Groq
  }

  // ---------------------------------------------------------------------
  // Chat completions (Groq and OpenAI)

  datatype ChatMessage = ChatMessage(content: Option<string>)

  /** A choice; a null choice or message is represented like a missing one. */
  datatype ChatChoice = ChatChoice(message: Option<ChatMessage>)

  datatype ChatBody = ChatBody(choices: Option<seq<ChatChoice>>)

  /** What the completion request produced. */
  datatype HttpOutcome =
    | NetworkError(reason: string)
    | Response(ok: bool, status: int, text: string, json: Result<ChatBody>)

  /** `completion.choices?.[0]?.message?.content?.trim() ?? ""`. */
  function FirstContent(body: ChatBody): (content: string)
    ensures content == [] || (!IsSpace(content[0]) && !IsSpace(content[|content| - 1]))
  {
    if body.choices.Some? && |body.choices.value| > 0
      && body.choices.value[0].message.Some? && body.choices.value[0].message.value.content.Some?
    then Trim(body.choices.value[0].message.value.content.value)
    else ""
  }

  /**
   * createChatCompletion: a failed request rethrows its reason, a non-ok
   * status throws with the status and the body text, and an ok answer gives
   * the trimmed first content or "".
   */
  function ChatCompletion(outcome: HttpOutcome): (r: Result<string>)
    ensures r.Ok? ==> outcome.Response? && outcome.ok && outcome.json.Ok?
    ensures r.Ok? ==> r.value == [] || (!IsSpace(r.value[0]) && !IsSpace(r.value[|r.value| - 1]))
  {
    match outcome
    case NetworkError(reason) => Err(reason)
    case Response(ok, status, text, json) =>
      if !ok then Err(RequestFailed(status, text))
      else if json.Err? then Err(json.message)
      else Ok(FirstContent(json.value))
  }

  /** The message thrown for a response that is not ok. */
  function RequestFailed(status: int, text: string): string {
    "API request failed (" + IntToString(status) + "): " + text
  }

  /** A non-ok answer is reported with its status and body, whatever the body holds. */
  lemma ChatCompletionFailure(status: int, text: string, json: Result<ChatBody>)
    ensures ChatCompletion(Response(false, status, text, json)) == Err("API request failed (" + IntToString(status) + "): " + text)
  {
    assert ChatCompletion(Response(false, status, text, json)) == Err(RequestFailed(status, text));
  }

  /** An ok answer whose first choice has content gives that content trimmed; no choices give "". */
  lemma ChatCompletionContent(status: int, text: string, content: string, rest: seq<ChatChoice>)
    ensures ChatCompletion(Response(true, status, text, Ok(ChatBody(Some([ChatChoice(Some(ChatMessage(Some(content))))] + rest)))))
      == Ok(Trim(content))
    ensures ChatCompletion(Response(true, status, text, Ok(ChatBody(Some([]))))) == Ok("")
    ensures ChatCompletion(Response(true, status, text, Ok(ChatBody(None)))) == Ok("")
  {
  }

  // ---------------------------------------------------------------------
  // callAI

  /** The provider exchanges: chat completions for Groq and OpenAI, the SDK's text for Gemini. */
  datatype Services = Services(groq: string -> HttpOutcome, openai: string -> HttpOutcome, gemini: string -> Result<string>)

  /** The answer of the chosen provider before wrapping: a missing key throws, as the per-provider callers do. */
  function ProviderAnswer(env: Env, svc: Services, prompt: string): (r: Result<string>)
    ensures KeyOf(env, GetProvider(env)) == "" ==> r == Err("GROQ_API_KEY not found")
    ensures r.Ok? ==> KeyOf(env, GetProvider(env)) != ""
    ensures r.Ok? && GetProvider(env) != Gemini ==> r.value == [] || (!IsSpace(r.value[0]) && !IsSpace(r.value[|r.value| - 1]))
  {
    match GetProvider(env)
    case Groq => if env.groqKey == "" then Err("GROQ_API_KEY not found") else ChatCompletion(svc.groq(prompt))
    case OpenAI => if env.openaiKey == "" then Err("OPENAI_API_KEY not found") else ChatCompletion(svc.openai(prompt))
    case Gemini => if env.googleKey == "" then Err("GOOGLE_API_KEY not found") else svc.gemini(prompt)
  }

  /** callAI: the chosen provider's answer, every failure rethrown with the prefix "Failed to call AI: ". */
  function CallAI(env: Env, svc: Services, prompt: string): (r: Result<string>)
    ensures r.Err? ==> StartsWith(r.message, "Failed to call AI: ")
    ensures r.Ok? <==> ProviderAnswer(env, svc, prompt).Ok?
    ensures ProviderAnswer(env, svc, prompt).Ok? ==> r == ProviderAnswer(env, svc, prompt)
    ensures ProviderAnswer(env, svc, prompt).Err? ==> r == Err("Failed to call AI: " + ProviderAnswer(env, svc, prompt).message)
  {
    match ProviderAnswer(env, svc, prompt)
    case Ok(text) => Ok(text)
    case Err(m) => Err("Failed to call AI: " + m)
  }

  /** Only the chosen provider is asked: exchanges with the other two do not affect the answer. */
  lemma OnlyChosenProviderAsked(env: Env, svc: Services, other: Services, prompt: string)
    requires GetProvider(env) == Groq ==> svc.groq(prompt) == other.groq(prompt)
    requires GetProvider(env) == OpenAI ==> svc.openai(prompt) == other.openai(prompt)
    requires GetProvider(env) == Gemini ==> svc.gemini(prompt) == other.gemini(prompt)
    ensures CallAI(env, svc, prompt) == CallAI(env, other, prompt)
  {
  }

  /** With no key at all the default Groq branch fails for its missing key. */
  lemma NoKeysFails(env: Env, svc: Services, prompt: string)
    requires env.groqKey == "" && env.openaiKey == "" && env.googleKey == ""
    ensures CallAI(env, svc, prompt) == Err("Failed to call AI: " + "GROQ_API_KEY not found")
  {
    assert GetProvider(env) == Groq;
    assert ProviderAnswer(env, svc, prompt) == Err("GROQ_API_KEY not found");
  }

  /** No failover: only the chosen provider's exchange matters, so another provider's answer never changes the result. */
  lemma NoFailover(env: Env, svc1: Services, svc2: Services, prompt: string)
    requires GetProvider(env) == Groq ==> svc1.groq == svc2.groq
    requires GetProvider(env) == OpenAI ==> svc1.openai == svc2.openai
    requires GetProvider(env) == Gemini ==> svc1.gemini == svc2.gemini
    ensures CallAI(env, svc1, prompt) == CallAI(env, svc2, prompt)
  {
  }

  /** A failing Groq exchange is reported even when OpenAI and Gemini are configured. */
  lemma GroqFailureIsFinal(env: Env, svc: Services, prompt: string, reason: string)
    requires env.groqKey != "" && svc.groq(prompt) == NetworkError(reason)
    ensures CallAI(env, svc, prompt) == Err("Failed to call AI: " + reason)
  {
  }

  // ---------------------------------------------------------------------
  // Code-fence cleaning

  /**
   * `s.replace(/<marker>\n?/g, "")`: every occurrence of marker, scanning
   * left to right without overlap, is deleted with one newline after it.
   */
  function RemoveMarker(s: string, marker: string): (r: string)
    requires marker != []
    ensures |r| <= |s|
    decreases |s|
  {
    if s == [] then []
    else if marker <= s then
      var rest := s[|marker|..];
      if rest != [] && rest[0] == '\n' then RemoveMarker(rest[1..], marker) else RemoveMarker(rest, marker)
    else [s[0]] + RemoveMarker(s[1..], marker)
  }

  /** Text without a backtick passes through a backtick marker's removal unchanged. */
  lemma {:induction false} RemoveMarkerSkips(x: string, y: string, marker: string)
    requires marker != [] && marker[0] == '`' && '`' !in x
    ensures RemoveMarker(x + y, marker) == x + RemoveMarker(y, marker)
    decreases |x|
  {
    if x == [] {
      assert x + y == y;
    } else {
      assert x[0] in x;
      assert (x + y)[0] == x[0];
      assert !(marker <= x + y);
      assert (x + y)[1..] == x[1..] + y;
      RemoveMarkerSkips(x[1..], y, marker);
      assert [x[0]] + x[1..] == x;
    }
  }

  /** The reply with code-fence markup removed, as both callers clean it. */
  function Cleaned(response: string): (cleaned: string)
    ensures |cleaned| <= |Trim(response)|
    ensures !StartsWith(Trim(response), "```") ==> cleaned == Trim(response)
  {
    Unfenced(Trim(response))
  }

  /** The fence markers deleted from an already trimmed reply, chosen by how it starts. */
  function Unfenced(t: string): (r: string)
    ensures |r| <= |t|
    ensures !StartsWith(t, "```") ==> r == t
  {
    if StartsWith(t, "```json") then RemoveMarker(RemoveMarker(t, "```json"), "```")
    else if StartsWith(t, "```") then RemoveMarker(t, "```")
    else t
  }

  /** The cleaner as written: trim, then delete the fence markers according to how the reply starts. */
  method CleanReply(response: string) returns (cleaned: string)
    ensures cleaned == Cleaned(response)
  {
    cleaned := Trim(response);
    if StartsWith(cleaned, "```json") {
      cleaned := RemoveMarker(cleaned, "```json");
      cleaned := RemoveMarker(cleaned, "```");
    } else if StartsWith(cleaned, "```") {
      cleaned := RemoveMarker(cleaned, "```");
    }
  }

  /** A fenced JSON body comes out as the body and the newline that preceded the closing fence. */
  lemma FencedBody(body: string)
    requires '`' !in body
    ensures Cleaned("```json\n" + body + "\n```") == body + "\n"
    ensures Cleaned("```\n" + body + "\n```") == body + "\n"
  {
    TaggedFence(body);
    PlainFence(body);
  }

  lemma ClosingFence()
    ensures RemoveMarker("\n```", "```") == "\n"
    ensures RemoveMarker("\n```", "```json") == "\n```"
  {
    assert RemoveMarker("```", "```") == [];
    assert "\n```"[1..] == "```";
    assert RemoveMarker("```", "```json") == "```" by {
      assert "```"[1..] == "``" && "``"[1..] == "`" && "`"[1..] == [];
    }
  }

  lemma TaggedFence(body: string)
    requires '`' !in body
    ensures Cleaned("```json\n" + body + "\n```") == body + "\n"
  {
    TaggedOpenerRemoved(body);
    ClosingFence();
    RemoveMarkerSkips(body, "\n```", "```");
  }

  /** Cleaning a "```json" fence leaves the body and the closing fence for the second pass. */
  lemma TaggedOpenerRemoved(body: string)
    requires '`' !in body
    ensures Cleaned("```json\n" + body + "\n```") == RemoveMarker(body + "\n```", "```")
  {
    var t := "```json\n" + body + "\n```";
    FenceIsTrimmed("```json\n", body);
    TrimmedCleaned(t);
    UnfencedTagged(body);
  }

  /** A reply with nothing to trim is only unfenced. */
  lemma TrimmedCleaned(t: string)
    requires Trim(t) == t
    ensures Cleaned(t) == Unfenced(t)
  {
  }

  lemma UnfencedTagged(body: string)
    requires '`' !in body
    ensures Unfenced("```json\n" + body + "\n```") == RemoveMarker(body + "\n```", "```")
  {
    var t := "```json\n" + body + "\n```";
    PrefixOfConcat("```json", "```json\n", body);
    PrefixOfConcat("```json", "```json\n" + body, "\n```");
    CleanedTagged(t);
    TaggedFenceRemoved(body);
  }

  /** A reply opening with "```json" loses both markers. */
  lemma CleanedTagged(t: string)
    requires "```json" <= t
    ensures Unfenced(t) == RemoveMarker(RemoveMarker(t, "```json"), "```")
  {
  }

  /** A reply that opens and closes with a backtick has nothing to trim. */
  lemma FenceIsTrimmed(open: string, body: string)
    requires open != [] && open[0] == '`'
    ensures Trim(open + body + "\n```") == open + body + "\n```"
  {
    var t := open + body + "\n```";
    assert t[0] == '`' && t[|t| - 1] == '`';
    TrimUnchanged(t);
  }

  lemma PrefixOfConcat(p: string, a: string, b: string)
    requires p <= a
    ensures p <= a + b
  {
    assert (a + b)[..|p|] == a[..|p|];
  }

  lemma TaggedFenceRemoved(body: string)
    requires '`' !in body
    ensures RemoveMarker("```json\n" + body + "\n```", "```json") == body + "\n```"
  {
    var closing := "\n```";
    var t := "```json\n" + body + closing;
    ClosingFence();
    RemoveMarkerSkips(body, closing, "```json");
    assert "```json" <= t;
    assert t[7..] == "\n" + body + closing;
    assert t[7..][1..] == body + closing;
  }

  lemma PlainFence(body: string)
    requires '`' !in body
    ensures Cleaned("```\n" + body + "\n```") == body + "\n"
  {
    var closing := "\n```";
    var t := "```\n" + body + closing;
    assert t == "```\n" + body + "\n```";
    TrimUnchanged(t);
    assert t[3] == '\n';
    assert !StartsWith(t, "```json");
    assert StartsWith(t, "```");
    assert Cleaned(t) == RemoveMarker(t, "```");
    PlainFenceRemoved(body);
  }

  lemma PlainFenceRemoved(body: string)
    requires '`' !in body
    ensures RemoveMarker("```\n" + body + "\n```", "```") == body + "\n"
  {
    var closing := "\n```";
    var t := "```\n" + body + closing;
    ClosingFence();
    RemoveMarkerSkips(body, closing, "```");
    assert "```" <= t;
    assert t[3..] == "\n" + body + closing;
    assert t[3..][1..] == body + closing;
  }

  // ---------------------------------------------------------------------
  // Profile extraction

  datatype Profile = Profile(
    skills: seq<string>,
    techStack: seq<string>,
    experienceLevel: string,
    roles: seq<string>,
    summary: string,
    keywords: seq<string>)

  /**
   * What parsing the cleaned reply gave: not JSON, the value null (reading a
   * field of it throws), or a value whose fields are present and truthy (Some)
   * or not (None).
   */
  datatype ParsedProfile =
    | NotJson
    | NullJson
    | Fields(
        skills: Option<seq<string>>,
        techStack: Option<seq<string>>,
        experienceLevel: Option<string>,
        roles: Option<seq<string>>,
        summary: Option<string>,
        keywords: Option<seq<string>>)

  /** The profile returned when the reply cannot be used. */
  const FallbackProfile := Profile([], [], "Mid", [], "Unable to parse resume. Please try again.", [])

  function OrEmpty(v: Option<seq<string>>): seq<string> {
    if v.Some? then v.value else []
  }

  /** `parsed.f || default` for every field: arrays default to [], the level to "Mid", the summary to "". */
  function WithDefaults(p: ParsedProfile): (profile: Profile)
    requires p.Fields?
    ensures profile.experienceLevel != ""
    ensures p.experienceLevel.Some? && p.experienceLevel.value != "" ==> profile.experienceLevel == p.experienceLevel.value
    ensures !(p.experienceLevel.Some? && p.experienceLevel.value != "") ==> profile.experienceLevel == "Mid"
    ensures p.skills.Some? ==> profile.skills == p.skills.value
    ensures p.skills.None? ==> profile.skills == []
    ensures p.techStack.Some? ==> profile.techStack == p.techStack.value
    ensures p.techStack.None? ==> profile.techStack == []
    ensures p.roles.Some? ==> profile.roles == p.roles.value
    ensures p.roles.None? ==> profile.roles == []
    ensures p.summary.Some? ==> profile.summary == p.summary.value
    ensures p.summary.None? ==> profile.summary == ""
    ensures p.keywords.Some? ==> profile.keywords == p.keywords.value
    ensures p.keywords.None? ==> profile.keywords == []
  {
    Profile(
      OrEmpty(p.skills),
      OrEmpty(p.techStack),
      if p.experienceLevel.Some? && p.experienceLevel.value != "" then p.experienceLevel.value else "Mid",
      OrEmpty(p.roles),
      if p.summary.Some? then p.summary.value else "",
      OrEmpty(p.keywords))
  }

  /** A parsed value without any of the fields gets every default. */
  lemma AllDefaults()
    ensures WithDefaults(Fields(None, None, None, None, None, None)) == Profile([], [], "Mid", [], "", [])
  {
  }

  /** Given fields are kept as they are. */
  lemma GivenFieldsKept(skills: seq<string>, techStack: seq<string>, level: string, roles: seq<string>, summary: string, keywords: seq<string>)
    requires level != ""
    ensures WithDefaults(Fields(Some(skills), Some(techStack), Some(level), Some(roles), Some(summary), Some(keywords)))
      == Profile(skills, techStack, level, roles, summary, keywords)
  {
  }

  /** The profile read from a reply: defaults on a parsed value, the fallback profile when parsing or reading failed. */
  function ProfileFromReply(reply: string, parse: string -> ParsedProfile): (profile: Profile)
    ensures profile.experienceLevel != ""
    ensures !parse(Cleaned(reply)).Fields? ==> profile == FallbackProfile
    ensures parse(Cleaned(reply)).Fields? ==> profile == WithDefaults(parse(Cleaned(reply)))
  {
    var parsed := parse(Cleaned(reply));
    if parsed.Fields? then WithDefaults(parsed) else FallbackProfile
  }

  const PromptHead := "Analyze the following resume text and extract structured information. Return ONLY valid JSON, no markdown, no code blocks.\n\nResume text:\n"

  const PromptTail := "\n\nExtract and return a JSON object with this exact structure:\n{\n  \"skills\": [\"skill1\", \"skill2\", ...],\n  \"techStack\": [\"tech1\", \"tech2\", ...],\n  \"experienceLevel\": \"Junior/Mid/Senior/Lead\",\n  \"roles\": [\"role1\", \"role2\", ...],\n  \"summary\": \"Brief 2-3 sentence summary of the candidate's experience\",\n  \"keywords\": [\"keyword1\", \"keyword2\", ...]\n}\n\nFocus on technical skills, programming languages, frameworks, tools, and technologies."

  /** The first 4000 characters of the resume, or all of it when shorter. */
  function ResumeHead(resume: string): (head: string)
    ensures |head| <= 4000 && head <= resume
    ensures |resume| <= 4000 ==> head == resume
  {
    if |resume| <= 4000 then resume else resume[..4000]
  }

  /** The extraction prompt: fixed instructions around the head of the resume. */
  function KeywordPrompt(resume: string): (prompt: string)
    ensures |prompt| == |PromptHead| + |ResumeHead(resume)| + |PromptTail|
    ensures prompt[..|PromptHead|] == PromptHead && prompt[|prompt| - |PromptTail|..] == PromptTail
    ensures prompt[|PromptHead|..|prompt| - |PromptTail|] == ResumeHead(resume)
  {
    Framed(PromptHead, ResumeHead(resume), PromptTail);
    PromptHead + ResumeHead(resume) + PromptTail
  }

  /** The parts of a three-part concatenation are found back by slicing. */
  lemma Framed(head: string, body: string, tail: string)
    ensures var s := head + body + tail;
      && |s| == |head| + |body| + |tail|
      && s[..|head|] == head && s[|s| - |tail|..] == tail
      && s[|head|..|s| - |tail|] == body
  {
  }

  /** Only the first 4000 characters of a resume reach the model. */
  lemma PromptSeesFirst4000(a: string, b: string)
    requires |a| >= 4000 && |b| >= 4000 && a[..4000] == b[..4000]
    ensures KeywordPrompt(a) == KeywordPrompt(b)
  {
    assert ResumeHead(a) == a[..4000];
    assert ResumeHead(b) == b[..4000];
  }

  /** The prompt's length is bounded whatever the resume's length. */
  lemma PromptBounded(resume: string)
    ensures |KeywordPrompt(resume)| <= |PromptHead| + 4000 + |PromptTail|
  {
  }

  /** What extractKeywords gives: a failed AI call propagates; a reply always yields a profile. */
  function KeywordsOutcome(resume: string, env: Env, svc: Services, parse: string -> ParsedProfile): (r: Result<Profile>)
    ensures r.Err? <==> CallAI(env, svc, KeywordPrompt(resume)).Err?
    ensures r.Err? ==> StartsWith(r.message, "Failed to call AI: ")
    ensures r.Ok? ==> r.value == ProfileFromReply(CallAI(env, svc, KeywordPrompt(resume)).value, parse)
  {
    match CallAI(env, svc, KeywordPrompt(resume))
    case Err(m) => Err(m)
    case Ok(reply) => Ok(ProfileFromReply(reply, parse))
  }

  /**
   * extractKeywords as written: the AI call precedes the guarded block, so
   * its failure propagates; only a reply that cannot be parsed or read gives
   * the fallback profile.
   */
  method ExtractKeywords(resume: string, env: Env, svc: Services, parse: string -> ParsedProfile)
    returns (r: Result<Profile>)
    ensures r == KeywordsOutcome(resume, env, svc, parse)
  {
    var prompt := KeywordPrompt(resume);
    var response := CallAI(env, svc, prompt);
    if response.Err? {
      return Err(response.message);
    }
    var cleaned := CleanReply(response.value);
    var parsed := parse(cleaned);
    if parsed.Fields? {
      r := Ok(WithDefaults(parsed));
    } else {
      r := Ok(FallbackProfile);
    }
  }

  /** A failed AI call is not absorbed: the error comes out and no profile, not even the fallback, is produced. */
  lemma AiFailurePropagates(resume: string, env: Env, svc: Services, parse: string -> ParsedProfile)
    requires CallAI(env, svc, KeywordPrompt(resume)).Err?
    ensures KeywordsOutcome(resume, env, svc, parse) == Err(CallAI(env, svc, KeywordPrompt(resume)).message)
    ensures StartsWith(KeywordsOutcome(resume, env, svc, parse).message, "Failed to call AI: ")
  {
  }

  /** A reply that does not parse, or parses to null, gives the fallback profile. */
  lemma UnparsableReplyFallsBack(resume: string, env: Env, svc: Services, parse: string -> ParsedProfile)
    requires CallAI(env, svc, KeywordPrompt(resume)).Ok?
    requires !parse(Cleaned(CallAI(env, svc, KeywordPrompt(resume)).value)).Fields?
    ensures KeywordsOutcome(resume, env, svc, parse) == Ok(FallbackProfile)
  {
  }

  /** Whenever a profile comes out, its experience level is non-empty. */
  lemma ExperienceLevelAlwaysSet(resume: string, env: Env, svc: Services, parse: string -> ParsedProfile)
    requires KeywordsOutcome(resume, env, svc, parse).Ok?
    ensures KeywordsOutcome(resume, env, svc, parse).value.experienceLevel != ""
  {
  }
}
