/**
 * The backend's job extractor (backend/services/job_extractor.py): the
 * company name read off a careers-page URL, the four demonstration jobs
 * returned when extraction fails, and the jobs built from the language
 * model's JSON answer.
 *
 * Fetching the page, stripping its HTML, the language model and JSON
 * decoding are not modelled: the page text is a parameter (None when the
 * request fails), the model's decoded answer is a parameter `llm`, and the
 * fresh uuids are a parameter `uuid` (the k-th job built gets `uuid(k)`).
 */
module JobExtractor {
  import opened Wrappers
  import opened Strings
  import opened Schemas

  // ---------------------------------------------------------------------
  // Company name
  // ---------------------------------------------------------------------

  /** The company name `_extract_company_name` reads off a URL; "Company" when the URL has no "//". */
  function CompanyName(url: string): string
  {
    var parts := Split(url, "//");
    if |parts| < 2 then "Company"
    else
      var domain := Split(parts[1], "/")[0];
      Title(Split(domain, ".")[0])
  }

  /** Without "//" the URL yields the default name. */
  lemma CompanyNameWithoutScheme(url: string)
    requires !Contains(url, "//")
    ensures CompanyName(url) == "Company"
  {
    var f := Find(url, "//");
    if f.Some? {
      ContainsIff(url, "//");
      assert OccursAt(url, "//", f.value);
    }
  }

  /** `x` holds no `c`. */
  predicate Free(x: string, c: char)
  {
    forall k :: 0 <= k < |x| ==> x[k] != c
  }

  /**
   * The first piece of a split of `x + z`, when `x` holds no first character
   * of the separator, is `x` followed by a prefix of `z`.
   */
  lemma HeadAfterFree(x: string, z: string, sep: string)
    requires |sep| > 0 && Free(x, sep[0])
    ensures |Split(x + z, sep)[0]| >= |x|
    ensures Split(x + z, sep)[0] == x + z[..|Split(x + z, sep)[0]| - |x|]
  {
    var s := x + z;
    var f := Find(s, sep);
    if f.Some? {
      var i := f.value;
      assert i >= |x|;
      assert s[..i] == x + z[..i - |x|];
    } else {
      assert s == x + z[..|z|];
    }
  }

  /** No occurrence of `sep` starts before `n` when no character before `n` is the separator's first. */
  lemma FindAtLeast(s: string, sep: string, n: nat)
    requires |sep| > 0 && n <= |s|
    requires forall k :: 0 <= k < n ==> s[k] != sep[0]
    ensures Find(s, sep).Some? ==> Find(s, sep).value >= n
  {
    var f := Find(s, sep);
    if f.Some? {
      assert s[f.value..f.value + |sep|][0] == s[f.value];
    }
  }

  /** An occurrence of `sep` at `n` bounds the first one. */
  lemma FindAtMost(s: string, sep: string, n: nat)
    requires |sep| > 0 && n + |sep| <= |s| && s[n..n + |sep|] == sep
    ensures Find(s, sep).Some? && Find(s, sep).value <= n
  {
    assert sep <= s[n..];
  }

  /** The first piece of a split on `c` of `x + z` is `x`, when `x` holds no `c` and `z` is empty or starts with `c`. */
  lemma HeadAtChar(x: string, z: string, c: char)
    requires Free(x, c) && (z == [] || z[0] == c)
    ensures Split(x + z, [c])[0] == x
  {
    var s := x + z;
    assert forall k :: 0 <= k < |x| ==> s[k] == x[k];
    FindAtLeast(s, [c], |x|);
    if z == [] {
      assert s == x;
    } else {
      assert s[|x|..|x| + 1] == [c];
      FindAtMost(s, [c], |x|);
      assert s[..|x|] == x;
    }
  }

  /** The first "//" of `scheme + "//" + y` is the one after `scheme`, when `scheme` holds no '/'. */
  lemma AfterScheme(scheme: string, y: string)
    requires Free(scheme, '/')
    ensures |Split(scheme + "//" + y, "//")| >= 2
    ensures Split(scheme + "//" + y, "//")[1] == Split(y, "//")[0]
  {
    var s := scheme + "//" + y;
    assert forall k :: 0 <= k < |scheme| ==> s[k] == scheme[k];
    FindAtLeast(s, "//", |scheme|);
    assert s[|scheme|..|scheme| + 2] == "//";
    FindAtMost(s, "//", |scheme|);
    assert s[|scheme| + 2..] == y;
  }

  /**
   * For a URL `scheme//first` followed by nothing, a path or a dotted
   * suffix, the company name is the title-cased `first`: the first
   * dot-separated part of the host.
   */
  lemma CompanyNameOfHost(scheme: string, first: string, rest: string)
    requires Free(scheme, '/') && Free(first, '/') && Free(first, '.')
    requires rest == [] || rest[0] == '/' || rest[0] == '.'
    ensures CompanyName(scheme + "//" + first + rest) == Title(first)
  {
    assert scheme + "//" + first + rest == scheme + "//" + (first + rest);
    AfterScheme(scheme, first + rest);
    var host := Split(first + rest, "//")[0];
    HeadAfterFree(first, rest, "//");
    var w := rest[..|host| - |first|];
    assert host == first + w;
    FirstLabel(first, w);
  }

  /** The part before the first '.' of the part before the first '/' of `first + w` is `first`. */
  lemma FirstLabel(first: string, w: string)
    requires Free(first, '/') && Free(first, '.')
    requires w == [] || w[0] == '/' || w[0] == '.'
    ensures Split(Split(first + w, "/")[0], ".")[0] == first
  {
    if w == [] || w[0] == '/' {
      HeadAtChar(first, w, '/');
      assert first == first + [];
      HeadAtChar(first, [], '.');
    } else {
      var domain := Split(first + w, "/")[0];
      HeadAfterFree(first, w, "/");
      var w2 := w[..|domain| - |first|];
      assert domain == first + w2;
      HeadAtChar(first, w2, '.');
    }
  }

  /** The example of the docstring: `https://acme.com/careers` gives "Acme". */
  lemma CompanyNameExample()
    ensures CompanyName("https://acme.com/careers") == "Acme"
  {
    AcmeUrlParts();
    CompanyNameOfHost("https:", "acme", ".com/careers");
    TitleAcme();
  }

  lemma AcmeUrlParts()
    ensures "https://acme.com/careers" == "https:" + "//" + "acme" + ".com/careers"
  {
  }

  lemma TitleAcme()
    ensures Title("acme") == "Acme"
  {
    TitleAt("acme", false, 0);
    TitleAt("acme", false, 1);
    TitleAt("acme", false, 2);
    TitleAt("acme", false, 3);
  }

  // ---------------------------------------------------------------------
  // Demonstration jobs
  // ---------------------------------------------------------------------

  /** One of the fixed demonstration jobs, without id and company. */
  datatype MockData = MockData(title: string, skills: seq<string>, experience: string, description: string)

  const MockCatalogue: seq<MockData> := [
    MockData("Senior Full Stack Developer", ["React", "Node.js", "Python", "AWS", "MongoDB"], "5+ years",
      "We are looking for a Senior Full Stack Developer to join our growing team. You will be responsible for developing and maintaining web applications using modern technologies."),
    MockData("DevOps Engineer", ["Docker", "Kubernetes", "AWS", "Jenkins", "Terraform"], "3-5 years",
      "Join our DevOps team to help build and maintain our cloud infrastructure. Experience with containerization and CI/CD pipelines required."),
    MockData("Data Scientist", ["Python", "Machine Learning", "SQL", "TensorFlow", "Pandas"], "2-4 years",
      "We're seeking a Data Scientist to analyze complex datasets and build predictive models. Strong background in statistics and machine learning required."),
    MockData("Frontend Developer", ["React", "TypeScript", "CSS", "JavaScript", "Redux"], "2-3 years",
      "Looking for a Frontend Developer to create engaging user interfaces. Experience with React and modern JavaScript frameworks is essential.")
  ]

  /** The demonstration jobs for a company, the k-th with id `uuid(k)`. */
  function MockJobsFor(companyName: string, uuid: nat -> string): seq<JobListing>
  {
    seq(|MockCatalogue|, k requires 0 <= k < |MockCatalogue| =>
      JobListing(uuid(k), MockCatalogue[k].title, MockCatalogue[k].skills,
                 MockCatalogue[k].experience, MockCatalogue[k].description, companyName))
  }

  /** Exactly four demonstration jobs, in a fixed title order, all at the given company. */
  lemma MockJobsShape(companyName: string, uuid: nat -> string)
    ensures |MockJobsFor(companyName, uuid)| == 4
    ensures forall k :: 0 <= k < 4 ==> MockJobsFor(companyName, uuid)[k].company == companyName
    ensures forall k :: 0 <= k < 4 ==> MockJobsFor(companyName, uuid)[k].id == uuid(k)
    ensures MockJobsFor(companyName, uuid)[0].title == "Senior Full Stack Developer"
    ensures MockJobsFor(companyName, uuid)[1].title == "DevOps Engineer"
    ensures MockJobsFor(companyName, uuid)[2].title == "Data Scientist"
    ensures MockJobsFor(companyName, uuid)[3].title == "Frontend Developer"
  {
  }

  /** `_get_mock_jobs`: builds the demonstration jobs one by one. */
  method MockJobs(companyName: string, uuid: nat -> string) returns (jobs: seq<JobListing>)
    ensures jobs == MockJobsFor(companyName, uuid)
  {
    jobs := [];
    var k := 0;
    while k < |MockCatalogue|
      invariant 0 <= k <= |MockCatalogue|
      invariant jobs == MockJobsFor(companyName, uuid)[..k]
    {
      var d := MockCatalogue[k];
      jobs := jobs + [JobListing(uuid(k), d.title, d.skills, d.experience, d.description, companyName)];
      k := k + 1;
    }
  }

  // ---------------------------------------------------------------------
  // Extraction
  // ---------------------------------------------------------------------

  /** A job object of the model's answer; a field is None when the key is missing. */
  datatype ParsedJob = ParsedJob(
    title: Option<string>,
    skills: Option<seq<string>>,
    experience: Option<string>,
    description: Option<string>,
    company: Option<string>)

  /**
   * The model's answer after `json.loads`: Unusable when the call raises, the
   * answer is not JSON or has not the expected shape; otherwise the "jobs"
   * list, None when the key is missing.
   */
  datatype ModelAnswer = Unusable | JobsObject(jobs: Option<seq<ParsedJob>>)

  /** Characters of page text kept for the prompt. */
  const PageTextLimit: nat := 8000

  /** Python `text[:8000]`. */
  function Truncate(text: string): (r: string)
    ensures r <= text
    ensures |r| == if |text| <= PageTextLimit then |text| else PageTextLimit
  {
    if |text| <= PageTextLimit then text else text[..PageTextLimit]
  }

  /** `d.get(key, default)` for a key that maps to a value or is missing. */
  function GetOr<T>(v: Option<T>, default: T): T
  {
    match v
    case Some(x) => x
    case None => default
  }

  /** A job built from one object of the answer: missing fields default, the company comes from the URL. */
  function JobFromParsed(p: ParsedJob, id: string, companyName: string): JobListing
  {
    JobListing(id, GetOr(p.title, ""), GetOr(p.skills, []), GetOr(p.experience, ""), GetOr(p.description, ""), companyName)
  }

  /** The company field of the answer is ignored, and a missing field becomes "" or []. */
  lemma JobFromParsedFields(p: ParsedJob, id: string, companyName: string, other: Option<string>)
    ensures JobFromParsed(p, id, companyName) == JobFromParsed(p.(company := other), id, companyName)
    ensures JobFromParsed(p, id, companyName).company == companyName
    ensures p.title.None? ==> JobFromParsed(p, id, companyName).title == ""
    ensures p.skills.None? ==> JobFromParsed(p, id, companyName).skills == []
    ensures p.experience.None? ==> JobFromParsed(p, id, companyName).experience == ""
    ensures p.description.None? ==> JobFromParsed(p, id, companyName).description == ""
    ensures p.title.Some? ==> JobFromParsed(p, id, companyName).title == p.title.value
  {
  }

  /** The jobs built from an answer's list, the k-th with id `uuid(k)`. */
  function JobsFromAnswer(ps: seq<ParsedJob>, companyName: string, uuid: nat -> string): seq<JobListing>
  {
    seq(|ps|, k requires 0 <= k < |ps| => JobFromParsed(ps[k], uuid(k), companyName))
  }

  /** The jobs `extract_jobs` returns, as a function of the page text and the model's answer. */
  function ExtractedJobs(url: string, page: Option<string>, llm: (string, string) -> ModelAnswer, uuid: nat -> string)
    : seq<JobListing>
  {
    if page.None? then MockJobsFor("Unknown Company", uuid)
    else
      var companyName := CompanyName(url);
      match llm(Truncate(page.value), companyName)
      case Unusable => MockJobsFor(companyName, uuid)
      case JobsObject(None) => []
      case JobsObject(Some(ps)) => JobsFromAnswer(ps, companyName, uuid)
  }

  /** `extract_jobs`. */
  method ExtractJobs(url: string, page: Option<string>, llm: (string, string) -> ModelAnswer, uuid: nat -> string)
    returns (jobs: seq<JobListing>)
    ensures jobs == ExtractedJobs(url, page, llm, uuid)
  {
    var companyName := CompanyName(url);
    if page.None? {
      jobs := MockJobs("Unknown Company", uuid);
      return;
    }
    var answer := llm(Truncate(page.value), companyName);
    match answer {
      case Unusable =>
        jobs := MockJobs(companyName, uuid);
      case JobsObject(list) =>
        var ps := GetOr(list, []);
        jobs := [];
        var k := 0;
        while k < |ps|
          invariant 0 <= k <= |ps|
          invariant jobs == JobsFromAnswer(ps, companyName, uuid)[..k]
        {
          jobs := jobs + [JobFromParsed(ps[k], uuid(k), companyName)];
          k := k + 1;
        }
    }
  }

  /**
   * Every extracted job is at the company read off the URL, or at "Unknown
   * Company" when the page could not be fetched, whatever the model answers.
   */
  lemma ExtractedJobsCompany(url: string, page: Option<string>, llm: (string, string) -> ModelAnswer, uuid: nat -> string)
    ensures forall j :: j in ExtractedJobs(url, page, llm, uuid) ==>
      j.company == if page.None? then "Unknown Company" else CompanyName(url)
  {
    var jobs := ExtractedJobs(url, page, llm, uuid);
    forall j | j in jobs
      ensures j.company == if page.None? then "Unknown Company" else CompanyName(url)
    {
      var k :| 0 <= k < |jobs| && jobs[k] == j;
      if page.Some? {
        var companyName := CompanyName(url);
        match llm(Truncate(page.value), companyName)
        case Unusable =>
          assert jobs[k] == MockJobsFor(companyName, uuid)[k];
        case JobsObject(Some(ps)) =>
          assert jobs[k] == JobFromParsed(ps[k], uuid(k), companyName);
      }
    }
  }

  /**
   * The jobs are the demonstration jobs when the page cannot be fetched or
   * the answer is unusable, none when the answer has no jobs, and one per
   * object of the answer otherwise.
   */
  lemma ExtractedJobsCount(url: string, page: Option<string>, llm: (string, string) -> ModelAnswer, uuid: nat -> string)
    ensures page.None? ==> |ExtractedJobs(url, page, llm, uuid)| == 4
    ensures page.Some? && llm(Truncate(page.value), CompanyName(url)).Unusable? ==>
      |ExtractedJobs(url, page, llm, uuid)| == 4
    ensures page.Some? && llm(Truncate(page.value), CompanyName(url)).JobsObject? ==>
      |ExtractedJobs(url, page, llm, uuid)| == |GetOr(llm(Truncate(page.value), CompanyName(url)).jobs, [])|
  {
  }
}
