/**
 * The dashboard wizard: URL input, then job selection, then the generated
 * email. The two network calls (job extraction and email generation) are
 * split at their `await`: a Begin half runs the setters before the call, a
 * Finish half receives the call's outcome (None for a thrown error) and runs
 * the rest. Nothing stops a handler from running while a call is in flight.
 */
module Dashboard {

  import opened Wrappers
  import opened Schemas

  datatype Step = Input | Jobs | Email

  class Wizard {
    var currentStep: Step
    var careerUrl: string
    var jobListings: seq<JobListing>
    var selectedJob: Option<JobListing>
    var generatedEmail: Option<GeneratedEmailData>
    var isLoading: bool

    /** The email step is only ever entered together with a generated email. */
    ghost predicate Valid()
      reads this
    {
      currentStep == Email ==> generatedEmail.Some?
    }

    constructor ()
      ensures Valid()
      ensures currentStep == Input && careerUrl == "" && jobListings == []
      ensures selectedJob == None && generatedEmail == None && !isLoading
    {
      currentStep := Input;
      careerUrl := "";
      jobListings := [];
      selectedJob := None;
      generatedEmail := None;
      isLoading := false;
    }

    /** `handleUrlSubmit` up to the extraction call; the URL form is rendered only on the first step. */
    method BeginUrlSubmit()
      requires Valid() && currentStep == Input
      modifies this`isLoading
      ensures Valid() && isLoading
    {
      isLoading := true;
    }

    /**
     * `handleUrlSubmit` after the extraction call: success stores the jobs
     * (even none) and the URL and moves to the job list; failure changes only
     * the loading flag, which ends false either way.
     */
    method FinishUrlSubmit(url: string, extracted: Option<seq<JobListing>>)
      requires Valid()
      modifies this
      ensures Valid() && !isLoading
      ensures selectedJob == old(selectedJob) && generatedEmail == old(generatedEmail)
      ensures extracted.Some? ==> jobListings == extracted.value && careerUrl == url && currentStep == Jobs
      ensures extracted.None? ==>
        jobListings == old(jobListings) && careerUrl == old(careerUrl) && currentStep == old(currentStep)
    {
      if extracted.Some? {
        jobListings := extracted.value;
        careerUrl := url;
        currentStep := Jobs;
      }
      isLoading := false;
    }

    /** `handleUrlSubmit` with no other event between the call and its answer. */
    method HandleUrlSubmit(url: string, extracted: Option<seq<JobListing>>)
      requires Valid() && currentStep == Input
      modifies this
      ensures Valid() && !isLoading
      ensures selectedJob == old(selectedJob) && generatedEmail == old(generatedEmail)
      ensures extracted.Some? ==> jobListings == extracted.value && careerUrl == url && currentStep == Jobs
      ensures extracted.None? ==>
        jobListings == old(jobListings) && careerUrl == old(careerUrl) && currentStep == old(currentStep)
    {
      BeginUrlSubmit();
      FinishUrlSubmit(url, extracted);
    }

    /**
     * `handleJobSelect` up to the generation call, from a card of the job
     * list: the job is recorded before the request. The card's own click
     * handler is not disabled while loading, so this can run again while a
     * call is in flight.
     */
    method BeginJobSelect(job: JobListing)
      requires Valid() && currentStep == Jobs
      modifies this`selectedJob, this`isLoading
      ensures Valid() && isLoading && selectedJob == Some(job)
    {
      selectedJob := Some(job);
      isLoading := true;
    }

    /**
     * `handleJobSelect` after the generation call: success stores the email and
     * moves to the email step; failure changes only the loading flag.
     */
    method FinishJobSelect(generated: Option<GeneratedEmailData>)
      requires Valid()
      modifies this
      ensures Valid() && !isLoading
      ensures careerUrl == old(careerUrl) && jobListings == old(jobListings) && selectedJob == old(selectedJob)
      ensures generated.Some? ==> generatedEmail == generated && currentStep == Email
      ensures generated.None? ==> generatedEmail == old(generatedEmail) && currentStep == old(currentStep)
    {
      if generated.Some? {
        generatedEmail := generated;
        currentStep := Email;
      }
      isLoading := false;
    }

    /** `handleJobSelect` with no other event between the call and its answer. */
    method HandleJobSelect(job: JobListing, generated: Option<GeneratedEmailData>)
      requires Valid() && currentStep == Jobs
      modifies this
      ensures Valid() && !isLoading
      ensures selectedJob == Some(job)
      ensures careerUrl == old(careerUrl) && jobListings == old(jobListings)
      ensures generated.Some? ==> generatedEmail == generated && currentStep == Email
      ensures generated.None? ==> generatedEmail == old(generatedEmail) && currentStep == old(currentStep)
    {
      BeginJobSelect(job);
      FinishJobSelect(generated);
    }

    /**
     * `handleReset`, the email view's reset button: back to an empty first
     * step; the loading flag is not touched.
     */
    method HandleReset()
      requires Valid() && currentStep == Email
      modifies this
      ensures Valid()
      ensures currentStep == Input && careerUrl == "" && jobListings == []
      ensures selectedJob == None && generatedEmail == None
      ensures isLoading == old(isLoading)
    {
      currentStep := Input;
      careerUrl := "";
      jobListings := [];
      selectedJob := None;
      generatedEmail := None;
    }

    /** "Back" on the job list: only the step changes; the fetched jobs are kept. */
    method BackFromJobs()
      requires Valid() && currentStep == Jobs
      modifies this`currentStep
      ensures Valid() && currentStep == Input
    {
      currentStep := Input;
    }

    /** "Back" on the email view: only the step changes. */
    method BackFromEmail()
      requires Valid() && currentStep == Email
      modifies this`currentStep
      ensures Valid() && currentStep == Jobs
    {
      currentStep := Jobs;
    }

    /** The URL form is rendered on the first step. */
    predicate ShowsUrlForm()
      reads this
    {
      currentStep == Input
    }

    /** The job list is rendered on the second step. */
    predicate ShowsJobList()
      reads this
    {
      currentStep == Jobs
    }

    /**
     * The email view is rendered when the step is the email step and an email
     * is present; in a valid state the second test never fails.
     */
    predicate ShowsEmail()
      reads this
      ensures Valid() ==> (ShowsEmail() <==> currentStep == Email)
    {
      currentStep == Email && generatedEmail.Some?
    }
  }

  /**
   * An answer that arrives after a reset is still applied. Two cards are
   * clicked while the first call is in flight; the first answer opens the
   * email view, whose reset clears everything; then the second answer lands
   * and reopens the email step with no selected job, no URL and no jobs.
   */
  method StaleAnswerAfterReset(first: JobListing, second: JobListing,
                               firstEmail: GeneratedEmailData, secondEmail: GeneratedEmailData)
    returns (w: Wizard)
    ensures w.currentStep == Email && w.generatedEmail == Some(secondEmail)
    ensures w.selectedJob == None && w.careerUrl == "" && w.jobListings == []
  {
    w := new Wizard();
    w.HandleUrlSubmit("https://acme.com/careers", Some([first, second]));
    w.BeginJobSelect(first);
    w.BeginJobSelect(second);
    w.FinishJobSelect(Some(firstEmail));
    w.HandleReset();
    w.FinishJobSelect(Some(secondEmail));
  }

  /** Without a busy guard a second selection can start while the first is in flight. */
  method SecondSelectWhileLoading(first: JobListing, second: JobListing) returns (w: Wizard)
    ensures w.isLoading && w.selectedJob == Some(second) && w.currentStep == Jobs
  {
    w := new Wizard();
    w.HandleUrlSubmit("https://acme.com/careers", Some([first, second]));
    w.BeginJobSelect(first);
    w.BeginJobSelect(second);
  }
}
