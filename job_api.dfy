/**
 * The job aggregator: the two job sources (JSearch and Adzuna), their
 * per-item adapters, the JSearch response-shape probe, and the combiner that
 * merges, de-duplicates by id and caps the list.
 *
 * Every HTTP exchange is an input: a source is a function from its query to
 * what the request produced (no credentials, a failed request or a decoded
 * JSON body).
 */
module JobApi {
  import opened Wrappers
  import opened Text
  import opened JsValue
  import opened JobFields

  /** A normalised job listing; url and postedDate keep the raw value they were copied from. */
  datatype JobListing = JobListing(
    id: string,
    title: string,
    company: string,
    description: string,
    requiredSkills: seq<string>,
    salaryRange: string,
    experience: string,
    location: string,
    jobType: string,
    url: Option<Json>,
    postedDate: Option<Json>)

  /** What asking a source produced. */
  datatype SourceResponse =
    | NoCredentials     // the API key or app id is not configured
    | RequestFailed     // the request failed, answered with a non-ok status, or its body was not JSON
    | Responded(data: Json)

  // ---------------------------------------------------------------------
  // Queries

  function FirstFive(keywords: seq<string>): (head: seq<string>)
    ensures |head| == if |keywords| < 5 then |keywords| else 5
    ensures head <= keywords
  {
    if |keywords| <= 5 then keywords else keywords[..5]
  }

  /** The JSearch query: the first five keywords and " jobs", or "developer jobs" when there are none. */
  function JSearchQuery(keywords: seq<string>): string {
    if |keywords| > 0 then Join(FirstFive(keywords), " ") + " jobs" else "developer jobs"
  }

  /** The Adzuna query: the first five keywords separated by spaces. */
  function AdzunaQuery(keywords: seq<string>): string {
    Join(FirstFive(keywords), " ")
  }

  /** Only the first five keywords reach either query. */
  lemma QueriesUseFirstFive(k1: seq<string>, k2: seq<string>)
    requires FirstFive(k1) == FirstFive(k2)
    ensures JSearchQuery(k1) == JSearchQuery(k2)
    ensures AdzunaQuery(k1) == AdzunaQuery(k2)
  {
    assert |k1| > 0 <==> |k2| > 0;
  }

  lemma QueryExamples()
    ensures JSearchQuery([]) == "developer jobs"
    ensures JSearchQuery(["React", "Node.js"]) == "React Node.js jobs"
    ensures AdzunaQuery(["a", "b", "c", "d", "e", "f"]) == "a b c d e"
  {
    var six := ["a", "b", "c", "d", "e", "f"];
    assert FirstFive(six) == ["a", "b", "c", "d", "e"];
  }

  // ---------------------------------------------------------------------
  // Building a listing

  /** A listing from its text fields; skills and experience are read from the description. */
  function MakeListing(
    id: string, title: string, company: string, description: string, salaryRange: string,
    location: string, jobType: string, url: Option<Json>, postedDate: Option<Json>): (listing: JobListing)
    ensures listing.requiredSkills == ExtractSkills(description) && listing.experience == ExtractExperience(description)
    ensures listing.(requiredSkills := [], experience := "")
      == JobListing(id, title, company, description, [], salaryRange, "", location, jobType, url, postedDate)
  {
    JobListing(id, title, company, description, ExtractSkills(description), salaryRange,
      ExtractExperience(description), location, jobType, url, postedDate)
  }

  /** A salary bound: a number, or absent when the field is missing or not a number. */
  function NumberOf(v: Option<Json>): (bound: Option<int>)
    ensures bound.Some? <==> v.Some? && v.value.JNum?
    ensures bound.Some? ==> v == Some(JNum(bound.value))
  {
    if v.Some? && v.value.JNum? then Some(v.value.n) else None
  }

  /** The currency argument: a string field as it is, "INR" when the field is missing. */
  function CurrencyOf(v: Option<Json>): (currency: string)
    ensures v.Some? && v.value.JStr? ==> v == Some(JStr(currency))
    ensures !(v.Some? && v.value.JStr?) ==> currency == "INR"
  {
    if v.Some? && v.value.JStr? then v.value.s else "INR"
  }

  /**
   * The description must be a string: lower-casing anything else throws
   * a TypeError, which makes the whole source answer nothing.
   */
  function DescriptionText(v: Option<Json>): (r: Result<string>)
    ensures r.Ok? <==> v.Some? && v.value.JStr?
  {
    if v.Some? && v.value.JStr? then Ok(v.value.s) else Err("TypeError: description.toLowerCase is not a function")
  }

  // ---------------------------------------------------------------------
  // JSearch

  /** The response fields probed for the job array, in order, after the bare array. */
  const ContainerKeys: seq<string> := ["data", "jobs", "results", "job_results"]

  /** The items of the first of `keys` whose field in data holds an array; none when no field does. */
  function FirstArrayUnder(data: Json, keys: seq<string>): (items: seq<Json>)
    ensures items != [] ==> exists k :: k in keys && Field(data, k) == Some(JArr(items))
  {
    if keys == [] then []
    else
      var v := Field(data, keys[0]);
      if v.Some? && v.value.JArr? then v.value.items else FirstArrayUnder(data, keys[1..])
  }

  lemma FirstArrayUnderStep(data: Json, keys: seq<string>)
    requires keys != []
    ensures FirstArrayUnder(data, keys) ==
      if Field(data, keys[0]).Some? && Field(data, keys[0]).value.JArr? then Field(data, keys[0]).value.items
      else FirstArrayUnder(data, keys[1..])
  {
  }

  /** The job array of a JSearch response, by the probe order. */
  function ContainerItems(data: Json): (items: seq<Json>)
    ensures data.JArr? ==> items == data.items
  {
    if data.JArr? then data.items else FirstArrayUnder(data, ContainerKeys)
  }

  /**
   * The probe as written: try the bare array and then each container
   * field in order, taking the first that holds an array.
   */
  method ProbeContainer(data: Json) returns (jobs: seq<Json>)
    ensures jobs == ContainerItems(data)
  {
    if !data.JArr? {
      ContainerUnrolled(data);
    }
    jobs := [];
    if data.JArr? {
      jobs := data.items;
    } else if Truthy(Field(data, "data")) && Field(data, "data").value.JArr? {
      jobs := Field(data, "data").value.items;
    } else if Truthy(Field(data, "jobs")) && Field(data, "jobs").value.JArr? {
      jobs := Field(data, "jobs").value.items;
    } else if Truthy(Field(data, "results")) && Field(data, "results").value.JArr? {
      jobs := Field(data, "results").value.items;
    } else if Truthy(Field(data, "job_results")) && Field(data, "job_results").value.JArr? {
      jobs := Field(data, "job_results").value.items;
    }
  }

  /** The items of the field `key` when it holds an array, `otherwise` when it does not. */
  function ArrayOr(data: Json, key: string, otherwise: seq<Json>): seq<Json> {
    var v := Field(data, key);
    if v.Some? && v.value.JArr? then v.value.items else otherwise
  }

  /** The probe order written out field by field. */
  lemma ContainerUnrolled(data: Json)
    requires !data.JArr?
    ensures ContainerItems(data) ==
      ArrayOr(data, "data", ArrayOr(data, "jobs", ArrayOr(data, "results", ArrayOr(data, "job_results", []))))
  {
    ContainerKeysUnfold();
    FirstArrayUnderStep(data, ContainerKeys);
    FirstArrayUnderStep(data, ContainerKeys[1..]);
    FirstArrayUnderStep(data, ContainerKeys[1..][1..]);
    FirstArrayUnderStep(data, ContainerKeys[1..][1..][1..]);
  }

  /** Each container field on its own yields its items, and a field outside the list yields none. */
  lemma ContainerShapes(xs: seq<Json>, key: string)
    ensures key in ContainerKeys ==> ContainerItems(JObj(map[key := JArr(xs)])) == xs
    ensures key !in ContainerKeys ==> ContainerItems(JObj(map[key := JArr(xs)])) == []
  {
    var data := JObj(map[key := JArr(xs)]);
    ContainerUnrolled(data);
    if key in ContainerKeys {
      ContainerShapeListed(data, xs, key);
    } else {
      ContainerKeysUnfold();
      assert key != "data" && key != "jobs" && key != "results" && key != "job_results";
    }
  }

  lemma ContainerShapeListed(data: Json, xs: seq<Json>, key: string)
    requires data == JObj(map[key := JArr(xs)]) && key in ContainerKeys
    ensures ArrayOr(data, "data", ArrayOr(data, "jobs", ArrayOr(data, "results", ArrayOr(data, "job_results", [])))) == xs
  {
    ContainerKeysUnfold();
    assert key == "data" || key == "jobs" || key == "results" || key == "job_results";
  }

  lemma ContainerKeysUnfold()
    ensures ContainerKeys[0] == "data" && ContainerKeys[1..] == ["jobs", "results", "job_results"]
    ensures ContainerKeys[1..][0] == "jobs" && ContainerKeys[1..][1..] == ["results", "job_results"]
    ensures ContainerKeys[1..][1..][0] == "results" && ContainerKeys[1..][1..][1..] == ["job_results"]
    ensures ContainerKeys[1..][1..][1..][0] == "job_results" && ContainerKeys[1..][1..][1..][1..] == []
  {
  }

  /** An earlier container field that holds an array wins over any later one. */
  lemma ContainerPrecedence(data: Json, xs: seq<Json>, ys: seq<Json>)
    requires data == JObj(map["data" := JArr(xs), "job_results" := JArr(ys)])
    ensures ContainerItems(data) == xs
  {
    ContainerUnrolled(data);
  }

  /** A container field that does not hold an array is skipped. */
  lemma ContainerSkipsNonArray(data: Json, ys: seq<Json>)
    requires data == JObj(map["data" := JStr("none"), "job_results" := JArr(ys)])
    ensures ContainerItems(data) == ys
  {
    ContainerUnrolled(data);
    assert Field(data, "jobs") == None && Field(data, "results") == None;
  }

  /** `job.job_highlights?.items?.join(" ")`: calling join on anything but an array throws. */
  function Highlights(job: Json): (r: Result<Option<Json>>)
    ensures r.Err? <==> var items := OptField(Field(job, "job_highlights"), "items");
      items.Some? && !items.value.JNull? && !items.value.JArr?
    ensures r.Ok? && r.value.Some? ==> r.value.value.JStr?
  {
    var items := OptField(Field(job, "job_highlights"), "items");
    if items.None? || items.value.JNull? then Ok(None)
    else if items.value.JArr? then Ok(Some(JStr(JoinValues(items.value.items, " "))))
    else Err("TypeError: items.join is not a function")
  }

  /** The raw description value: the first truthy of the two description fields and the highlights, else "". */
  function JSearchDescription(job: Json): (r: Result<Option<Json>>)
    ensures Truthy(Or(Field(job, "job_description"), Field(job, "description")))
      ==> r == Ok(Or(Field(job, "job_description"), Field(job, "description")))
    ensures r.Err? ==> Highlights(job).Err?
    ensures r.Ok? ==> r.value.Some?
  {
    var direct := Or(Field(job, "job_description"), Field(job, "description"));
    if Truthy(direct) then Ok(direct)
    else
      match Highlights(job)
      case Err(e) => Err(e)
      case Ok(h) => Ok(Or(h, Lit("")))
  }

  /** "city, state" when both are given, otherwise whichever is given, otherwise the requested location. */
  function JSearchLocation(city: Option<Json>, state: Option<Json>, location: string): (place: string)
    ensures Truthy(city) && Truthy(state) ==> place == OptText(city) + ", " + OptText(state)
    ensures Truthy(city) && !Truthy(state) ==> place == OptText(city)
    ensures !Truthy(city) && Truthy(state) ==> place == OptText(state)
    ensures !Truthy(city) && !Truthy(state) ==> place == location
  {
    if Truthy(city) && Truthy(state) then OptText(city) + ", " + OptText(state)
    else OptText(Or(Or(city, state), Lit(location)))
  }

  /** One JSearch item as a listing; an item the adapter would throw on gives an error. */
  function JSearchItem(job: Json, index: nat, location: string): (r: Result<JobListing>)
    ensures job.JNull? ==> r.Err?
    ensures r.Ok? <==> !job.JNull? && JSearchDescription(job).Ok? && DescriptionText(JSearchDescription(job).value).Ok?
    ensures r.Ok? ==> StartsWith(r.value.id, "jsearch-")
  {
    if job.JNull? then Err("TypeError: cannot read properties of null")
    else
      var jobId := Or(Or(Field(job, "job_id"), Field(job, "id")), Lit("jsearch-" + NatToString(index)));
      var title := Or(Or(Field(job, "job_title"), Field(job, "title")), Lit("Job Title"));
      var company := Or(Or(Or(Field(job, "employer_name"), Field(job, "company")), Field(job, "employer")), Lit("Company"));
      var city := Or(Or(Field(job, "job_city"), Field(job, "city")), Lit(""));
      var state := Or(Or(Field(job, "job_state"), Field(job, "state")), Lit(""));
      var jobType := Or(Or(Field(job, "job_employment_type"), Field(job, "employment_type")), Lit("Full-time"));
      var url := Or(Or(Field(job, "job_apply_link"), Field(job, "apply_link")), Field(job, "url"));
      var posted := Or(Field(job, "job_posted_at_datetime_utc"), Field(job, "posted_date"));
      var salary := SalaryText(NumberOf(Field(job, "job_min_salary")), NumberOf(Field(job, "job_max_salary")),
        CurrencyOf(Field(job, "job_salary_currency")));
      match JSearchDescription(job)
      case Err(e) => Err(e)
      case Ok(d) =>
        match DescriptionText(d)
        case Err(e) => Err(e)
        case Ok(description) =>
          Ok(MakeListing("jsearch-" + OptText(jobId), OptText(title), OptText(company), description, salary,
            JSearchLocation(city, state, location), OptText(jobType), url, posted))
  }

  /** An item with none of the fields gets every default, including the doubly prefixed fallback id. */
  lemma JSearchItemDefaults(job: Json, index: nat, location: string)
    requires job == JObj(map[])
    ensures JSearchItem(job, index, location) == Ok(JobListing(
      "jsearch-jsearch-" + NatToString(index), "Job Title", "Company", "", [], "Not disclosed", "2+ years",
      location, "Full-time", None, None))
  {
    var id := "jsearch-jsearch-" + NatToString(index);
    JSearchEmptyItem(job, index, location);
    EmptyListing(id, "Job Title", "Company", "Not disclosed", location, "Full-time");
  }

  /** A listing built from an empty description has no skills and the default experience. */
  lemma EmptyListing(id: string, title: string, company: string, salary: string, location: string, jobType: string)
    ensures MakeListing(id, title, company, "", salary, location, jobType, None, None)
      == JobListing(id, title, company, "", [], salary, "2+ years", location, jobType, None, None)
  {
    EmptyDescription();
  }

  lemma JSearchEmptyItem(job: Json, index: nat, location: string)
    requires job == JObj(map[])
    ensures JSearchItem(job, index, location) == Ok(MakeListing(
      "jsearch-jsearch-" + NatToString(index), "Job Title", "Company", "", "Not disclosed", location, "Full-time", None, None))
  {
    var x := NatToString(index);
    assert "jsearch-" + ("jsearch-" + x) == "jsearch-jsearch-" + x;
    assert JSearchDescription(job) == Ok(Lit(""));
    assert JSearchLocation(Lit(""), Lit(""), location) == location;
  }

  /** A JSearch item with a city and a state is placed at "city, state". */
  lemma JSearchItemPlace(job: Json, index: nat)
    requires job == JObj(map["job_city" := JStr("Pune"), "job_state" := JStr("Maharashtra")])
    ensures JSearchItem(job, index, "India").Ok?
    ensures JSearchItem(job, index, "India").value.location == "Pune, Maharashtra"
  {
    var city, state := Lit("Pune"), Lit("Maharashtra");
    assert Or(Or(Field(job, "job_city"), Field(job, "city")), Lit("")) == city;
    assert Or(Or(Field(job, "job_state"), Field(job, "state")), Lit("")) == state;
    assert JSearchDescription(job) == Ok(Lit(""));
    JSearchItemFields(job, index, "India");
    PlaceText(city, state);
  }

  /**
   * Every field of a listing built from an item: the first truthy of the
   * item's alternative fields, else the default; the description text with
   * the skills and experience read from it; the salary from the bounds.
   */
  lemma JSearchItemFields(job: Json, index: nat, location: string)
    requires !job.JNull? && JSearchDescription(job).Ok? && DescriptionText(JSearchDescription(job).value).Ok?
    ensures JSearchItem(job, index, location).Ok?
    ensures var l := JSearchItem(job, index, location).value;
      && l.id == "jsearch-" + OptText(Or(Or(Field(job, "job_id"), Field(job, "id")), Lit("jsearch-" + NatToString(index))))
      && l.title == OptText(Or(Or(Field(job, "job_title"), Field(job, "title")), Lit("Job Title")))
      && l.company == OptText(Or(Or(Or(Field(job, "employer_name"), Field(job, "company")), Field(job, "employer")), Lit("Company")))
      && JSearchDescription(job) == Ok(Some(JStr(l.description)))
      && l.requiredSkills == ExtractSkills(l.description)
      && l.experience == ExtractExperience(l.description)
      && l.salaryRange == SalaryText(NumberOf(Field(job, "job_min_salary")), NumberOf(Field(job, "job_max_salary")),
        CurrencyOf(Field(job, "job_salary_currency")))
      && l.location == JSearchLocation(
        Or(Or(Field(job, "job_city"), Field(job, "city")), Lit("")),
        Or(Or(Field(job, "job_state"), Field(job, "state")), Lit("")), location)
      && l.jobType == OptText(Or(Or(Field(job, "job_employment_type"), Field(job, "employment_type")), Lit("Full-time")))
      && l.url == Or(Or(Field(job, "job_apply_link"), Field(job, "apply_link")), Field(job, "url"))
      && l.postedDate == Or(Field(job, "job_posted_at_datetime_utc"), Field(job, "posted_date"))
  {
  }

  lemma PlaceText(city: Option<Json>, state: Option<Json>)
    requires city == Lit("Pune") && state == Lit("Maharashtra")
    ensures JSearchLocation(city, state, "India") == "Pune, Maharashtra"
  {
    assert OptText(city) + ", " + OptText(state) == "Pune" + ", " + "Maharashtra";
  }

  /** The items of a list mapped all-or-nothing: one failing item makes the whole source answer nothing. */
  function AllListings(rs: seq<Result<JobListing>>): (jobs: seq<JobListing>)
    ensures (forall i :: 0 <= i < |rs| ==> rs[i].Ok?) ==> |jobs| == |rs| && forall i :: 0 <= i < |rs| ==> jobs[i] == rs[i].value
    ensures (exists i :: 0 <= i < |rs| && rs[i].Err?) ==> jobs == []
  {
    if forall i :: 0 <= i < |rs| ==> rs[i].Ok? then seq(|rs|, i requires 0 <= i < |rs| => rs[i].value) else []
  }

  /** The listings of a JSearch response. */
  function JSearchJobs(data: Json, location: string): (jobs: seq<JobListing>)
    ensures forall j :: j in jobs ==> StartsWith(j.id, "jsearch-")
    ensures |jobs| <= |ContainerItems(data)|
  {
    var items := ContainerItems(data);
    AllListings(seq(|items|, i requires 0 <= i < |items| => JSearchItem(items[i], i, location)))
  }

  /** A null among the items makes the JSearch source answer nothing. */
  lemma JSearchNullItem(data: Json, location: string, i: nat)
    requires i < |ContainerItems(data)| && ContainerItems(data)[i].JNull?
    ensures JSearchJobs(data, location) == []
  {
    var items := ContainerItems(data);
    var rs := seq(|items|, i requires 0 <= i < |items| => JSearchItem(items[i], i, location));
    assert rs[i].Err?;
  }

  /** What the JSearch source contributes for the keywords. */
  function JSearchSource(keywords: seq<string>, location: string, jsearch: string -> SourceResponse): (jobs: seq<JobListing>)
    ensures !jsearch(JSearchQuery(keywords)).Responded? ==> jobs == []
    ensures forall j :: j in jobs ==> StartsWith(j.id, "jsearch-")
  {
    match jsearch(JSearchQuery(keywords))
    case Responded(data) => JSearchJobs(data, location)
    case _ => []
  }

  // ---------------------------------------------------------------------
  // Adzuna

  /** One Adzuna item as a listing; an item the adapter would throw on gives an error. */
  function AdzunaItem(job: Json, index: nat, location: string): (r: Result<JobListing>)
    ensures job.JNull? ==> r.Err?
    ensures r.Ok? <==> !job.JNull? && DescriptionText(Or(Field(job, "description"), Lit(""))).Ok?
    ensures r.Ok? ==> StartsWith(r.value.id, "adzuna-")
  {
    if job.JNull? then Err("TypeError: cannot read properties of null")
    else
      var jobId := Or(Field(job, "id"), Some(JNum(index)));
      var title := Or(Field(job, "title"), Lit("Job Title"));
      var company := Or(OptField(Field(job, "company"), "display_name"), Lit("Company"));
      var place := Or(OptField(Field(job, "location"), "display_name"), Lit(location));
      var jobType := Or(Field(job, "contract_type"), Lit("Full-time"));
      var salary := SalaryText(NumberOf(Field(job, "salary_min")), NumberOf(Field(job, "salary_max")), "INR");
      match DescriptionText(Or(Field(job, "description"), Lit("")))
      case Err(e) => Err(e)
      case Ok(description) =>
        Ok(MakeListing("adzuna-" + OptText(jobId), OptText(title), OptText(company), description, salary,
          OptText(place), OptText(jobType), Field(job, "redirect_url"), Field(job, "created")))
  }

  /** An Adzuna item with none of the fields gets every default and its position as id, 0 included. */
  lemma AdzunaItemDefaults(job: Json, index: nat, location: string)
    requires job == JObj(map[])
    ensures AdzunaItem(job, index, location) == Ok(JobListing(
      "adzuna-" + NatToString(index), "Job Title", "Company", "", [], "Not disclosed", "2+ years",
      location, "Full-time", None, None))
  {
    AdzunaEmptyItem(job, index, location);
    EmptyListing("adzuna-" + NatToString(index), "Job Title", "Company", "Not disclosed", location, "Full-time");
  }

  /**
   * Every field of a listing built from an Adzuna item: `id || index`, the
   * nested display names, the flat title, type and description fields with
   * their defaults, the salary in rupees, and the link and creation date as given.
   */
  lemma AdzunaItemFields(job: Json, index: nat, location: string)
    requires !job.JNull? && DescriptionText(Or(Field(job, "description"), Lit(""))).Ok?
    ensures AdzunaItem(job, index, location).Ok?
    ensures var l := AdzunaItem(job, index, location).value;
      && l.id == "adzuna-" + OptText(Or(Field(job, "id"), Some(JNum(index))))
      && l.title == OptText(Or(Field(job, "title"), Lit("Job Title")))
      && l.company == OptText(Or(OptField(Field(job, "company"), "display_name"), Lit("Company")))
      && Or(Field(job, "description"), Lit("")) == Some(JStr(l.description))
      && l.requiredSkills == ExtractSkills(l.description)
      && l.experience == ExtractExperience(l.description)
      && l.salaryRange == SalaryText(NumberOf(Field(job, "salary_min")), NumberOf(Field(job, "salary_max")), "INR")
      && l.location == OptText(Or(OptField(Field(job, "location"), "display_name"), Lit(location)))
      && l.jobType == OptText(Or(Field(job, "contract_type"), Lit("Full-time")))
      && l.url == Field(job, "redirect_url")
      && l.postedDate == Field(job, "created")
  {
  }

  lemma AdzunaEmptyItem(job: Json, index: nat, location: string)
    requires job == JObj(map[])
    ensures AdzunaItem(job, index, location) == Ok(MakeListing(
      "adzuna-" + NatToString(index), "Job Title", "Company", "", "Not disclosed", location, "Full-time", None, None))
  {
    assert OptText(Or(Field(job, "id"), Some(JNum(index)))) == NatToString(index);
    assert OptText(Or(OptField(Field(job, "location"), "display_name"), Lit(location))) == location;
  }

  /** The listings of an Adzuna response: only a `results` array is mapped. */
  function AdzunaJobs(data: Json, location: string): (jobs: seq<JobListing>)
    ensures forall j :: j in jobs ==> StartsWith(j.id, "adzuna-")
    ensures !(Field(data, "results").Some? && Field(data, "results").value.JArr?) ==> jobs == []
  {
    var results := Field(data, "results");
    if results.Some? && results.value.JArr? then
      var items := results.value.items;
      AllListings(seq(|items|, i requires 0 <= i < |items| => AdzunaItem(items[i], i, location)))
    else []
  }

  /** What the Adzuna source contributes for the keywords and the location. */
  function AdzunaSource(keywords: seq<string>, location: string, adzuna: (string, string) -> SourceResponse): (jobs: seq<JobListing>)
    ensures !adzuna(AdzunaQuery(keywords), location).Responded? ==> jobs == []
    ensures forall j :: j in jobs ==> StartsWith(j.id, "adzuna-")
  {
    match adzuna(AdzunaQuery(keywords), location)
    case Responded(data) => AdzunaJobs(data, location)
    case _ => []
  }

  // ---------------------------------------------------------------------
  // Combining

  /** All listings gathered: JSearch first, then Adzuna only when JSearch gave fewer than 20. */
  function Gathered(
    keywords: seq<string>, location: string,
    jsearch: string -> SourceResponse, adzuna: (string, string) -> SourceResponse): (jobs: seq<JobListing>)
    ensures JSearchSource(keywords, location, jsearch) <= jobs
    ensures |JSearchSource(keywords, location, jsearch)| >= 20 ==> jobs == JSearchSource(keywords, location, jsearch)
    ensures |JSearchSource(keywords, location, jsearch)| < 20
      ==> jobs == JSearchSource(keywords, location, jsearch) + AdzunaSource(keywords, location, adzuna)
    ensures forall j :: j in jobs[|JSearchSource(keywords, location, jsearch)|..] ==> StartsWith(j.id, "adzuna-")
  {
    var first := JSearchSource(keywords, location, jsearch);
    if |first| < 20 then first + AdzunaSource(keywords, location, adzuna) else first
  }

  /** With 20 or more JSearch listings, Adzuna is not consulted: its answer does not matter. */
  lemma AdzunaOnlyWhenFew(
    keywords: seq<string>, location: string, jsearch: string -> SourceResponse,
    adzuna1: (string, string) -> SourceResponse, adzuna2: (string, string) -> SourceResponse)
    requires |JSearchSource(keywords, location, jsearch)| >= 20
    ensures Gathered(keywords, location, jsearch, adzuna1) == Gathered(keywords, location, jsearch, adzuna2)
    ensures Gathered(keywords, location, jsearch, adzuna1) == JSearchSource(keywords, location, jsearch)
  {
  }

  /** Some listing in jobs has the given id. */
  predicate HasId(jobs: seq<JobListing>, id: string) {
    exists j :: 0 <= j < |jobs| && jobs[j].id == id
  }

  lemma HasIdSnoc(jobs: seq<JobListing>, x: JobListing, id: string)
    ensures HasId(jobs + [x], id) <==> HasId(jobs, id) || x.id == id
  {
    var s := jobs + [x];
    if HasId(jobs, id) {
      var j :| 0 <= j < |jobs| && jobs[j].id == id;
      assert s[j].id == id;
    }
    if x.id == id {
      assert s[|jobs|].id == id;
    }
    if HasId(s, id) {
      var j :| 0 <= j < |s| && s[j].id == id;
      if j < |jobs| {
        assert jobs[j].id == id;
      }
    }
  }

  /** The ids of jobs in order of first occurrence. */
  function DistinctIds(jobs: seq<JobListing>): (ids: seq<string>)
    ensures NoDuplicates(ids)
    ensures forall id :: id in ids <==> HasId(jobs, id)
    ensures |ids| <= |jobs|
  {
    if jobs == [] then []
    else
      var init := jobs[..|jobs| - 1];
      var ids := DistinctIds(init);
      var last := jobs[|jobs| - 1];
      assert jobs == init + [last];
      HasIdsSnocAll(init, last);
      if last.id in ids then ids else ids + [last.id]
  }

  lemma HasIdsSnocAll(jobs: seq<JobListing>, x: JobListing)
    ensures forall id :: HasId(jobs + [x], id) <==> HasId(jobs, id) || x.id == id
  {
    forall id
      ensures HasId(jobs + [x], id) <==> HasId(jobs, id) || x.id == id
    {
      HasIdSnoc(jobs, x, id);
    }
  }

  /** The last listing with the given id. */
  function LastWithId(jobs: seq<JobListing>, id: string): (job: JobListing)
    requires HasId(jobs, id)
    ensures job.id == id && job in jobs
    ensures exists j :: 0 <= j < |jobs| && jobs[j] == job && forall k :: j < k < |jobs| ==> jobs[k].id != id
  {
    if jobs[|jobs| - 1].id == id then jobs[|jobs| - 1]
    else
      assert jobs == jobs[..|jobs| - 1] + [jobs[|jobs| - 1]];
      HasIdSnoc(jobs[..|jobs| - 1], jobs[|jobs| - 1], id);
      LastWithId(jobs[..|jobs| - 1], id)
  }

  lemma LastWithIdSnoc(jobs: seq<JobListing>, x: JobListing, id: string)
    requires HasId(jobs + [x], id)
    ensures x.id != id ==> HasId(jobs, id) && LastWithId(jobs + [x], id) == LastWithId(jobs, id)
    ensures x.id == id ==> LastWithId(jobs + [x], id) == x
  {
    HasIdSnoc(jobs, x, id);
    assert (jobs + [x])[..|jobs|] == jobs;
  }

  /** De-duplication through a map keyed by id: one entry per id in first-occurrence order, holding the last listing with it. */
  function Dedup(jobs: seq<JobListing>): (unique: seq<JobListing>)
    ensures |unique| == |DistinctIds(jobs)|
    ensures forall i :: 0 <= i < |unique| ==> unique[i].id == DistinctIds(jobs)[i] && unique[i] in jobs
    ensures forall i :: 0 <= i < |unique| ==> unique[i] == LastWithId(jobs, DistinctIds(jobs)[i])
  {
    var ids := DistinctIds(jobs);
    seq(|ids|, i requires 0 <= i < |ids| => assert ids[i] in ids; LastWithId(jobs, ids[i]))
  }

  /**
   * De-duplication keeps one listing per id: no two results share an id,
   * each result is one of the inputs, and every input id is represented.
   */
  lemma DedupProperties(jobs: seq<JobListing>)
    ensures |Dedup(jobs)| <= |jobs|
    ensures forall i, j :: 0 <= i < j < |Dedup(jobs)| ==> Dedup(jobs)[i].id != Dedup(jobs)[j].id
    ensures forall x :: x in Dedup(jobs) ==> x in jobs
    ensures forall x :: x in jobs ==> exists i :: 0 <= i < |Dedup(jobs)| && Dedup(jobs)[i].id == x.id
  {
    var ids := DistinctIds(jobs);
    var unique := Dedup(jobs);
    assert forall i :: 0 <= i < |unique| ==> unique[i].id == ids[i];
    forall x | x in jobs
      ensures exists i :: 0 <= i < |unique| && unique[i].id == x.id
    {
      var j :| 0 <= j < |jobs| && jobs[j] == x;
      assert HasId(jobs, x.id);
      var i :| 0 <= i < |ids| && ids[i] == x.id;
      assert unique[i].id == x.id;
    }
  }

  lemma {:induction false} DistinctIdsOfUnique(jobs: seq<JobListing>)
    requires forall i, j :: 0 <= i < j < |jobs| ==> jobs[i].id != jobs[j].id
    ensures DistinctIds(jobs) == seq(|jobs|, i requires 0 <= i < |jobs| => jobs[i].id)
  {
    if jobs != [] {
      var init := jobs[..|jobs| - 1];
      DistinctIdsOfUnique(init);
      assert jobs[|jobs| - 1].id !in DistinctIds(init);
    }
  }

  lemma {:induction false} LastWithUniqueId(jobs: seq<JobListing>, i: nat)
    requires forall i, j :: 0 <= i < j < |jobs| ==> jobs[i].id != jobs[j].id
    requires i < |jobs|
    ensures LastWithId(jobs, jobs[i].id) == jobs[i]
  {
    if i < |jobs| - 1 {
      LastWithUniqueId(jobs[..|jobs| - 1], i);
    }
  }

  /** A list whose ids are already distinct passes through de-duplication unchanged. */
  lemma DedupOfUnique(jobs: seq<JobListing>)
    requires forall i, j :: 0 <= i < j < |jobs| ==> jobs[i].id != jobs[j].id
    ensures Dedup(jobs) == jobs
  {
    DistinctIdsOfUnique(jobs);
    forall i | 0 <= i < |jobs|
      ensures Dedup(jobs)[i] == jobs[i]
    {
      LastWithUniqueId(jobs, i);
    }
  }

  /** A later listing with a repeated id replaces the earlier one's value but keeps its place. */
  lemma DedupKeepsPlaceTakesLast(a: JobListing, b: JobListing, c: JobListing)
    requires a.id == c.id && a.id != b.id
    ensures Dedup([a, b, c]) == [c, b]
  {
    ThreeIds(a, b, c);
    ThreeLast(a, b, c);
  }

  lemma ThreeIds(a: JobListing, b: JobListing, c: JobListing)
    requires a.id == c.id && a.id != b.id
    ensures DistinctIds([a, b, c]) == [a.id, b.id]
  {
    var jobs := [a, b, c];
    assert jobs[..2][..1] == [a];
    assert jobs[..2] == [a, b];
    assert DistinctIds([a]) == [a.id];
    assert DistinctIds([a, b]) == [a.id, b.id];
  }

  lemma ThreeLast(a: JobListing, b: JobListing, c: JobListing)
    requires a.id == c.id && a.id != b.id
    ensures HasId([a, b, c], a.id) && LastWithId([a, b, c], a.id) == c
    ensures HasId([a, b, c], b.id) && LastWithId([a, b, c], b.id) == b
  {
    var jobs := [a, b, c];
    assert jobs[2] == c && jobs[1] == b;
    assert jobs[..2] == [a, b];
  }

  /** At most 50 listings. */
  function Capped(jobs: seq<JobListing>): (head: seq<JobListing>)
    ensures |head| <= 50 && head <= jobs
    ensures |jobs| <= 50 ==> head == jobs
  {
    if |jobs| <= 50 then jobs else jobs[..50]
  }

  /** What fetchRealJobs returns. */
  function RealJobs(
    keywords: seq<string>, location: string,
    jsearch: string -> SourceResponse, adzuna: (string, string) -> SourceResponse): (jobs: seq<JobListing>)
    ensures |jobs| <= 50
    ensures forall i, j :: 0 <= i < j < |jobs| ==> jobs[i].id != jobs[j].id
    ensures forall x :: x in jobs ==> x in Gathered(keywords, location, jsearch, adzuna)
  {
    var gathered := Gathered(keywords, location, jsearch, adzuna);
    CappedDedup(gathered);
    Capped(Dedup(gathered))
  }

  /** The first 50 de-duplicated listings have distinct ids and all come from the input. */
  lemma CappedDedup(jobs: seq<JobListing>)
    ensures var head := Capped(Dedup(jobs));
      && (forall i, j :: 0 <= i < j < |head| ==> head[i].id != head[j].id)
      && (forall x :: x in head ==> x in jobs)
  {
    DedupProperties(jobs);
    var unique := Dedup(jobs);
    var head := Capped(unique);
    assert forall x :: x in head ==> x in unique;
  }

  /**
   * De-duplication as written: a map from id to listing filled in order
   * (a repeated id keeps its first position and takes the later value),
   * then read out in insertion order.
   */
  method DedupById(jobs: seq<JobListing>) returns (unique: seq<JobListing>)
    ensures unique == Dedup(jobs)
  {
    var byId, order := IndexById(jobs);
    assert forall t :: 0 <= t < |order| ==> order[t] in byId;
    unique := [];
    for k := 0 to |order|
      invariant |unique| == k
      invariant forall t :: 0 <= t < k ==> unique[t] == byId[order[t]]
    {
      unique := unique + [byId[order[k]]];
    }
    DedupReadOut(jobs, byId, order, unique);
  }

  lemma DedupReadOut(jobs: seq<JobListing>, byId: map<string, JobListing>, order: seq<string>, unique: seq<JobListing>)
    requires order == DistinctIds(jobs)
    requires forall id :: id in byId ==> HasId(jobs, id) && byId[id] == LastWithId(jobs, id)
    requires |unique| == |order| && forall t :: 0 <= t < |order| ==> order[t] in byId && unique[t] == byId[order[t]]
    ensures unique == Dedup(jobs)
  {
  }

  /**
   * `new Map(jobs.map(job => [job.id, job]))`: the map from id to listing,
   * and its keys in insertion order.
   */
  method IndexById(jobs: seq<JobListing>) returns (byId: map<string, JobListing>, order: seq<string>)
    ensures order == DistinctIds(jobs)
    ensures forall id :: id in byId <==> id in order
    ensures forall id :: id in byId ==> HasId(jobs, id) && byId[id] == LastWithId(jobs, id)
  {
    byId := map[];
    order := [];
    for i := 0 to |jobs|
      invariant Describes(jobs[..i], byId, order)
    {
      var job := jobs[i];
      assert jobs[..i + 1] == jobs[..i] + [job];
      var order' := if job.id in byId then order else order + [job.id];
      IndexSnoc(jobs[..i], job, byId, order, order');
      byId, order := byId[job.id := job], order';
    }
    assert jobs[..|jobs|] == jobs;
  }

  /** The map and key order of IndexById describe the listings seen so far. */
  ghost predicate Describes(seen: seq<JobListing>, byId: map<string, JobListing>, order: seq<string>)
  {
    && order == DistinctIds(seen)
    && (forall id :: id in byId <==> id in order)
    && (forall id :: id in byId ==> HasId(seen, id) && byId[id] == LastWithId(seen, id))
  }

  /** Setting one more listing keeps the map and key order describing the listings seen. */
  lemma IndexSnoc(seen: seq<JobListing>, job: JobListing, byId: map<string, JobListing>, order: seq<string>, order': seq<string>)
    requires Describes(seen, byId, order)
    requires order' == if job.id in byId then order else order + [job.id]
    ensures Describes(seen + [job], byId[job.id := job], order')
  {
    DistinctIdsSnoc(seen, job);
    assert order' == DistinctIds(seen + [job]);
    var byId' := byId[job.id := job];
    assert forall id :: id in byId' <==> id in order';
    LastWithIdsSnoc(seen, job, byId);
  }

  /** Each id set so far maps to its last listing once one more listing is set. */
  lemma LastWithIdsSnoc(seen: seq<JobListing>, job: JobListing, byId: map<string, JobListing>)
    requires forall id :: id in byId ==> HasId(seen, id) && byId[id] == LastWithId(seen, id)
    ensures forall id :: id in byId[job.id := job] ==>
      HasId(seen + [job], id) && byId[job.id := job][id] == LastWithId(seen + [job], id)
  {
    var byId' := byId[job.id := job];
    forall id | id in byId'
      ensures HasId(seen + [job], id) && byId'[id] == LastWithId(seen + [job], id)
    {
      HasIdsSnocAll(seen, job);
      LastWithIdSnoc(seen, job, id);
    }
  }

  lemma DistinctIdsSnoc(jobs: seq<JobListing>, x: JobListing)
    ensures DistinctIds(jobs + [x]) == if x.id in DistinctIds(jobs) then DistinctIds(jobs) else DistinctIds(jobs) + [x.id]
  {
    assert (jobs + [x])[..|jobs|] == jobs;
  }

  /** Some listing before position j has the given id. */
  predicate SeenBefore(jobs: seq<JobListing>, id: string, j: nat) {
    exists i :: 0 <= i < j && i < |jobs| && jobs[i].id == id
  }

  /**
   * The ids come in order of first occurrence: wherever a later id occurs,
   * every earlier id has already occurred before that place.
   */
  lemma {:induction false} DistinctIdsFirstOccurrence(jobs: seq<JobListing>)
    ensures var ids := DistinctIds(jobs);
      forall k1, k2, j :: 0 <= k1 < k2 < |ids| && 0 <= j < |jobs| && jobs[j].id == ids[k2] ==> SeenBefore(jobs, ids[k1], j)
  {
    if jobs != [] {
      var init, x := jobs[..|jobs| - 1], jobs[|jobs| - 1];
      assert jobs == init + [x];
      DistinctIdsFirstOccurrence(init);
      DistinctIdsSnoc(init, x);
      var before, ids := DistinctIds(init), DistinctIds(jobs);
      forall k1, k2, j | 0 <= k1 < k2 < |ids| && 0 <= j < |jobs| && jobs[j].id == ids[k2]
        ensures SeenBefore(jobs, ids[k1], j)
      {
        if k2 < |before| {
          FirstOccurrenceInInit(init, x, k1, k2, j);
        } else {
          NewIdComesLast(init, x, k1, j);
        }
      }
    }
  }

  /** An id already present before the last listing keeps its earlier ids in front of it. */
  lemma FirstOccurrenceInInit(init: seq<JobListing>, x: JobListing, k1: nat, k2: nat, j: nat)
    requires var ids := DistinctIds(init);
      forall k1, k2, j :: 0 <= k1 < k2 < |ids| && 0 <= j < |init| && init[j].id == ids[k2] ==> SeenBefore(init, ids[k1], j)
    requires k1 < k2 < |DistinctIds(init)| && j <= |init| && (init + [x])[j].id == DistinctIds(init)[k2]
    ensures SeenBefore(init + [x], DistinctIds(init)[k1], j)
  {
    var ids := DistinctIds(init);
    var j' := j;
    if j == |init| {
      assert HasId(init, ids[k2]);
      j' :| 0 <= j' < |init| && init[j'].id == ids[k2];
    } else {
      assert init[j].id == ids[k2];
    }
    assert SeenBefore(init, ids[k1], j');
    var i :| 0 <= i < j' && i < |init| && init[i].id == ids[k1];
    assert (init + [x])[i].id == ids[k1];
  }

  /** A new id is appended last, so every earlier id occurs before the listing that brings it. */
  lemma NewIdComesLast(init: seq<JobListing>, x: JobListing, k1: nat, j: nat)
    requires x.id !in DistinctIds(init)
    requires k1 < |DistinctIds(init)| && j <= |init| && (init + [x])[j].id == x.id
    ensures SeenBefore(init + [x], DistinctIds(init)[k1], j)
  {
    var ids := DistinctIds(init);
    assert HasId(init, ids[k1]);
    var i :| 0 <= i < |init| && init[i].id == ids[k1];
    assert (init + [x])[i].id == ids[k1];
  }

  /**
   * fetchRealJobs as written: collect the JSearch listings, add Adzuna's when
   * there are fewer than 20, de-duplicate by id and keep the first 50.
   */
  method FetchRealJobs(
    keywords: seq<string>, location: string,
    jsearch: string -> SourceResponse, adzuna: (string, string) -> SourceResponse)
    returns (listings: seq<JobListing>)
    ensures listings == RealJobs(keywords, location, jsearch, adzuna)
  {
    var jobs := CollectJobs(keywords, location, jsearch, adzuna);
    var unique := DedupById(jobs);
    listings := if |unique| <= 50 then unique else unique[..50];
  }

  /** The collecting half of fetchRealJobs: push the JSearch listings, then Adzuna's when there are fewer than 20. */
  method CollectJobs(
    keywords: seq<string>, location: string,
    jsearch: string -> SourceResponse, adzuna: (string, string) -> SourceResponse)
    returns (jobs: seq<JobListing>)
    ensures jobs == Gathered(keywords, location, jsearch, adzuna)
  {
    jobs := [];
    var jsearchJobs := JSearchSource(keywords, location, jsearch);
    jobs := jobs + jsearchJobs;
    assert jobs == jsearchJobs;
    if |jobs| < 20 {
      var adzunaJobs := AdzunaSource(keywords, location, adzuna);
      jobs := jobs + adzunaJobs;
    }
  }

  /** The two sources never share an id: every JSearch id differs from every Adzuna id. */
  lemma SourcesDisjoint(
    keywords: seq<string>, location: string,
    jsearch: string -> SourceResponse, adzuna: (string, string) -> SourceResponse, x: JobListing, y: JobListing)
    requires x in JSearchSource(keywords, location, jsearch) && y in AdzunaSource(keywords, location, adzuna)
    ensures x.id != y.id
  {
    assert StartsWith(x.id, "jsearch-") && StartsWith(y.id, "adzuna-");
    assert x.id[0] == 'j' && y.id[0] == 'a';
  }
}
