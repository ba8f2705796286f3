/**
 * The backend's cold-email writer (backend/services/email_generator.py):
 * the portfolio text and the prompt it fills in, the scanner that reads the
 * `SUBJECT:` / `EMAIL:` reply of the language model, and the template email
 * used when the reply is missing or cannot be read.
 *
 * The language model and the portfolio search are not modelled: the model's
 * answer is a parameter `llm` (None when the call raises), and the portfolio
 * search's outcome is a parameter (None when it raises).
 */
module EmailGeneratorService {
  import opened Wrappers
  import opened Strings
  import opened Schemas

  const SubjectMarker: string := "SUBJECT:"
  const EmailMarker: string := "EMAIL:"
  const NoLinksText: string := "- No specific portfolio links available"

  // ---------------------------------------------------------------------
  // Portfolio text
  // ---------------------------------------------------------------------

  /** Each link as a `- ` bullet. */
  function Bullets(links: seq<string>): (r: seq<string>)
    ensures |r| == |links|
    ensures forall i :: 0 <= i < |links| ==> r[i] == "- " + links[i]
  {
    if links == [] then [] else ["- " + links[0]] + Bullets(links[1..])
  }

  /** The portfolio links as the prompt shows them: one bullet per line, or a fixed line when there are none. */
  function PortfolioText(links: seq<string>): string
  {
    var joined := Join(Bullets(links), "\n");
    if joined == "" then NoLinksText else joined
  }

  /** A joined list starts with its first part. */
  lemma JoinStartsWith(parts: seq<string>, sep: string)
    requires |parts| >= 1
    ensures parts[0] <= Join(parts, sep)
  {
  }

  /**
   * With no links the text is the fixed line; otherwise it splits back, line
   * by line, into one bullet per link (when no link holds a line break).
   */
  lemma PortfolioTextLines(links: seq<string>)
    ensures links == [] ==> PortfolioText(links) == NoLinksText
    ensures links != [] ==> "- " + links[0] <= PortfolioText(links)
    ensures links != [] && NoneContainsChar(links, '\n') ==>
      Split(PortfolioText(links), "\n") == Bullets(links)
  {
    if links != [] {
      var b := Bullets(links);
      JoinStartsWith(b, "\n");
      assert Join(b, "\n") != "";
      if NoneContainsChar(links, '\n') {
        assert NoneContainsChar(b, "\n"[0]) by {
          forall k, i | 0 <= k < |b| && 0 <= i < |b[k]|
            ensures b[k][i] != '\n'
          {
            if i >= 2 {
              assert b[k][i] == links[k][i - 2];
            }
          }
        }
        SplitJoin(b, "\n");
      }
    }
  }

  /** A single link that reads like the fixed line gives the same text as no links at all. */
  lemma PortfolioTextAmbiguous()
    ensures PortfolioText(["No specific portfolio links available"]) == PortfolioText([])
  {
    var link := "No specific portfolio links available";
    assert Bullets([link]) == ["- " + link];
    assert "- " + link == NoLinksText;
  }

  // ---------------------------------------------------------------------
  // Prompt
  // ---------------------------------------------------------------------

  /** The six variables of the prompt template. */
  datatype EmailPrompt = EmailPrompt(
    jobTitle: string,
    company: string,
    skills: string,
    experience: string,
    description: string,
    portfolioLinks: string)

  /** The prompt filled in for one job and its portfolio links; the skills are joined with ", ". */
  function PromptFor(job: JobListing, links: seq<string>): EmailPrompt
  {
    EmailPrompt(job.title, job.company, Join(job.skills, ", "), job.experience, job.description, PortfolioText(links))
  }

  // ---------------------------------------------------------------------
  // Reply parsing
  // ---------------------------------------------------------------------

  /** The reply's lines: stripped, then split on line feeds. */
  function ReplyLines(result: string): (lines: seq<string>)
    ensures |lines| >= 1
  {
    Split(PyStrip(result), "\n")
  }

  /** The first line that starts with `EMAIL:`, or the number of lines. */
  function EmailLineIndex(lines: seq<string>): (k: nat)
    ensures k <= |lines|
    ensures k < |lines| ==> EmailMarker <= lines[k]
    ensures forall j :: 0 <= j < k ==> !(EmailMarker <= lines[j])
  {
    if lines == [] then 0
    else if EmailMarker <= lines[0] then 0
    else 1 + EmailLineIndex(lines[1..])
  }

  /** The last line that starts with `SUBJECT:`, if any. */
  function LastSubjectIndex(lines: seq<string>): (r: Option<nat>)
    ensures r.Some? ==>
      && r.value < |lines| && SubjectMarker <= lines[r.value]
      && forall j :: r.value < j < |lines| ==> !(SubjectMarker <= lines[j])
    ensures r.None? ==> forall j :: 0 <= j < |lines| ==> !(SubjectMarker <= lines[j])
  {
    if lines == [] then None
    else if SubjectMarker <= lines[|lines| - 1] then Some(|lines| - 1)
    else LastSubjectIndex(lines[..|lines| - 1])
  }

  /** The subject read off a `SUBJECT:` line: every marker removed, then stripped. */
  function SubjectFrom(line: string): string
  {
    PyStrip(RemoveAll(line, SubjectMarker))
  }

  /** The subject read from the last `SUBJECT:` line among `lines`, or "". */
  function SubjectOf(lines: seq<string>): string
  {
    match LastSubjectIndex(lines)
    case None => ""
    case Some(j) => SubjectFrom(lines[j])
  }

  /** The subject of a reply: from the last `SUBJECT:` line before the first `EMAIL:` line. */
  function ParsedSubject(lines: seq<string>): string
  {
    SubjectOf(lines[..EmailLineIndex(lines)])
  }

  /** The body of a reply: the lines after the first `EMAIL:` line, joined and stripped; "" without one. */
  function ParsedContent(lines: seq<string>): string
  {
    var k := EmailLineIndex(lines);
    if k < |lines| then PyStrip(Join(lines[k + 1..], "\n")) else ""
  }

  /** The line scanner of the generator, proved to compute ParsedSubject and ParsedContent. */
  method ParseReply(result: string) returns (subject: string, content: string)
    ensures subject == ParsedSubject(ReplyLines(result))
    ensures content == ParsedContent(ReplyLines(result))
  {
    var lines := Split(PyStrip(result), "\n");
    subject, content := "", "";
    var i := 0;
    while i < |lines|
      invariant 0 <= i <= |lines|
      invariant forall j :: 0 <= j < i ==> !(EmailMarker <= lines[j])
      invariant subject == SubjectOf(lines[..i])
      invariant content == ""
    {
      assert lines[..i + 1][..i] == lines[..i];
      if SubjectMarker <= lines[i] {
        assert lines[i][0] == 'S';
        subject := SubjectFrom(lines[i]);
      } else if EmailMarker <= lines[i] {
        content := PyStrip(Join(lines[i + 1..], "\n"));
        break;
      }
      i := i + 1;
    }
  }

  /** The subject line of a reply in the requested format. */
  function SubjectLine(subject: string): string
  {
    SubjectMarker + " " + subject
  }

  /** What the prompt asks the model to return: the subject line, a blank line, the `EMAIL:` line, the body. */
  function FormatReply(subject: string, body: string): string
  {
    SubjectLine(subject) + "\n" + ("\n" + (EmailMarker + "\n" + body))
  }

  /** A reply in the requested format with a stripped body is already stripped. */
  lemma FormatReplyStripped(subject: string, body: string)
    requires body != [] && !IsPySpace(body[|body| - 1])
    ensures PyStrip(FormatReply(subject, body)) == FormatReply(subject, body)
  {
    var s := FormatReply(subject, body);
    assert s[0] == 'S';
    assert s[|s| - 1] == body[|body| - 1];
    TrimBare(s, IsPySpace);
  }

  /** A subject without line breaks gives a subject line without line breaks. */
  lemma SubjectLineOneLine(subject: string)
    requires forall i :: 0 <= i < |subject| ==> subject[i] != '\n'
    ensures forall k :: 0 <= k < |SubjectLine(subject)| ==> SubjectLine(subject)[k] != "\n"[0]
  {
    var x := SubjectLine(subject);
    forall k | 0 <= k < |x| ensures x[k] != '\n' {
      if k >= 9 {
        assert x[k] == subject[k - 9];
      }
    }
  }

  lemma SplitAfterEmptyLine(y: string)
    ensures Split("\n" + y, "\n") == [""] + Split(y, "\n")
  {
    assert "" + "\n" + y == "\n" + y;
    SplitCons("", "\n", y);
  }

  lemma SplitEmailLine(body: string)
    ensures Split(EmailMarker + "\n" + body, "\n") == [EmailMarker] + Split(body, "\n")
  {
    SplitCons(EmailMarker, "\n", body);
  }

  /** The lines of a reply in the requested format, when the subject is one line. */
  lemma FormatReplySplit(subject: string, body: string)
    requires forall i :: 0 <= i < |subject| ==> subject[i] != '\n'
    ensures Split(FormatReply(subject, body), "\n") == [SubjectLine(subject), "", EmailMarker] + Split(body, "\n")
  {
    var x := SubjectLine(subject);
    var y := EmailMarker + "\n" + body;
    SubjectLineOneLine(subject);
    SplitCons(x, "\n", "\n" + y);
    SplitAfterEmptyLine(y);
    SplitEmailLine(body);
  }

  /** Removing the marker from a subject line leaves the space and the subject. */
  lemma RemoveSubjectMarker(subject: string)
    requires !Contains(subject, SubjectMarker)
    ensures RemoveAll(SubjectLine(subject), SubjectMarker) == " " + subject
  {
    var x := SubjectLine(subject);
    var tail := " " + subject;
    assert x[|SubjectMarker|..] == tail;
    RemoveAllAbsent(subject, SubjectMarker);
    assert tail[1..] == subject;
  }

  /** Stripping drops the space in front of a stripped subject. */
  lemma StripLeadingSpace(subject: string)
    requires subject != [] && !IsPySpace(subject[0]) && !IsPySpace(subject[|subject| - 1])
    ensures PyStrip(" " + subject) == subject
  {
    TrimLeftAfterSpaces(" ", subject, IsPySpace);
    TrimBare(subject, IsPySpace);
  }

  /**
   * A reply in the requested format gives back its subject and body, when the
   * subject is one stripped line without the marker and the body is stripped.
   */
  lemma ParseFormattedReply(subject: string, body: string)
    requires subject != [] && !IsPySpace(subject[0]) && !IsPySpace(subject[|subject| - 1])
    requires forall i :: 0 <= i < |subject| ==> subject[i] != '\n'
    requires !Contains(subject, SubjectMarker)
    requires body != [] && !IsPySpace(body[0]) && !IsPySpace(body[|body| - 1])
    ensures ParsedSubject(ReplyLines(FormatReply(subject, body))) == subject
    ensures ParsedContent(ReplyLines(FormatReply(subject, body))) == body
  {
    FormatReplyStripped(subject, body);
    FormatReplySplit(subject, body);
    ScanFormatted(SubjectLine(subject), Split(body, "\n"));
    RemoveSubjectMarker(subject);
    StripLeadingSpace(subject);
    JoinSplit(body, "\n");
    TrimBare(body, IsPySpace);
  }

  /** Scanning a subject line, a blank line and an `EMAIL:` line reads the subject from the first and the body from the rest. */
  lemma ScanFormatted(x: string, rest: seq<string>)
    requires SubjectMarker <= x
    ensures ParsedSubject([x, "", EmailMarker] + rest) == SubjectFrom(x)
    ensures ParsedContent([x, "", EmailMarker] + rest) == PyStrip(Join(rest, "\n"))
  {
    var lines := [x, "", EmailMarker] + rest;
    assert !(EmailMarker <= lines[0]) by {
      assert lines[0][0] == 'S';
    }
    assert EmailLineIndex(lines) == 2 by {
      assert EmailLineIndex(lines[2..]) == 0;
      assert lines[1..][1..] == lines[2..];
    }
    assert lines[..2] == [x, ""];
    assert LastSubjectIndex(lines[..2]) == Some(0) by {
      assert [x, ""][..1] == [x];
    }
    assert lines[3..] == rest;
  }


  // ---------------------------------------------------------------------
  // Fallback template
  // ---------------------------------------------------------------------

  /** Python `xs[:n]`. */
  function Take(xs: seq<string>, n: nat): (r: seq<string>)
    ensures |r| == if |xs| <= n then |xs| else n
    ensures r <= xs
  {
    if |xs| <= n then xs else xs[..n]
  }

  function FallbackSubject(job: JobListing): string
  {
    "Solve Your " + job.title + " Hiring Challenge - Atliq Can Help"
  }

  /** The opening of the template email. */
  function Greeting(job: JobListing): string
  {
    "Dear " + job.company + " Hiring Team,"
  }

  function RolePhrase(job: JobListing): string
  {
    "hiring for a " + job.title + " position."
  }

  function SkillsPhrase(job: JobListing): string
  {
    "skills in " + Join(Take(job.skills, 3), ", ") + " can be"
  }

  function ExpertisePhrase(job: JobListing): string
  {
    "expertise in " + Join(Take(job.skills, 2), ", ") + "\n"
  }

  /** The fixed middle of the template email, up to the skills it lists in its third offer. */
  const OffersText: string := " challenging and time-consuming.\n\nAt Atliq, we specialize in providing dedicated engineers who can seamlessly integrate with your team. Instead of spending months on recruitment, we can provide you with pre-vetted professionals who have the exact skills you need.\n\nOur approach offers:\n\U{2022} 50% faster deployment compared to traditional hiring\n\U{2022} Cost savings of up to 40% on recruitment and onboarding\n\U{2022} Access to engineers with proven "

  /** The fixed text between the third offer's skills and the role named in the closing question. */
  const ClosingLead: string := "\U{2022} Flexible engagement models to match your project needs\n\nWe've successfully helped companies like yours scale their technical teams efficiently. Our engineers are ready to contribute from day one, ensuring your projects stay on track.\n\nWould you be open to a brief 15-minute call to discuss how we can help solve your "

  /** The fixed end of the template email. */
  const ClosingTail: string := " requirements? I'd love to share specific examples of how we've helped similar companies.\n\nBest regards,\n[Your Name]\nAtliq Solutions\nEmail: business@atliq.com\nPhone: +1-555-123-4567"

  /** The template email, cut into pieces at the phrases that depend on the job. */
  function FallbackPieces(job: JobListing): seq<string>
  {
    [Greeting(job), "\n\nI noticed you're actively ", RolePhrase(job), " Finding the right talent with ",
     SkillsPhrase(job), OffersText, ExpertisePhrase(job), ClosingLead, job.title, ClosingTail]
  }

  /** The template email: the pieces in order. */
  function FallbackContent(job: JobListing): string
  {
    Concat(FallbackPieces(job))
  }

  /** The template subject names the role; the template email opens by greeting the company's hiring team. */
  lemma FallbackGreets(job: JobListing)
    ensures "Solve Your " + job.title <= FallbackSubject(job)
    ensures "Dear " + job.company + " Hiring Team," <= FallbackContent(job)
  {
    ConcatContains(FallbackPieces(job), 0);
  }

  /** The template subject and email are never empty. */
  lemma FallbackNonEmpty(job: JobListing)
    ensures FallbackSubject(job) != "" && FallbackContent(job) != ""
  {
    ConcatContains(FallbackPieces(job), 0);
  }

  /** The template email names the role it is about. */
  lemma FallbackNamesRole(job: JobListing)
    ensures Contains(FallbackContent(job), "hiring for a " + job.title + " position.")
  {
    ConcatContains(FallbackPieces(job), 2);
  }

  /** The template email lists the first three skills of the job, joined by ", ". */
  lemma FallbackListsSkills(job: JobListing)
    ensures Contains(FallbackContent(job), "skills in " + Join(Take(job.skills, 3), ", ") + " can be")
  {
    ConcatContains(FallbackPieces(job), 4);
  }

  /** The template email offers expertise in the first two skills of the job, joined by ", ". */
  lemma FallbackOffersExpertise(job: JobListing)
    ensures Contains(FallbackContent(job), "expertise in " + Join(Take(job.skills, 2), ", ") + "\n")
  {
    ConcatContains(FallbackPieces(job), 6);
  }






  // ---------------------------------------------------------------------
  // Generation
  // ---------------------------------------------------------------------

  /**
   * `generate_email`. `portfolio` is the portfolio search's links (None when
   * it raises); `llm` answers a prompt (None when the call raises); `id` and
   * `timestamp` stand for the fresh uuid and the current time.
   */
  method GenerateEmail(job: JobListing, portfolio: Option<seq<string>>, llm: EmailPrompt -> Option<string>,
                       id: string, timestamp: string)
    returns (email: GeneratedEmailData)
    ensures email.id == id && email.timestamp == timestamp && email.jobListing == job
    ensures email.portfolioLinks == if portfolio.Some? then portfolio.value else []
    ensures email.subject != "" && email.content != ""
    ensures portfolio.None? ==> email.subject == FallbackSubject(job) && email.content == FallbackContent(job)
    ensures portfolio.Some? ==>
      var reply := llm(PromptFor(job, portfolio.value));
      var usable := reply.Some?
        && ParsedSubject(ReplyLines(reply.value)) != "" && ParsedContent(ReplyLines(reply.value)) != "";
      if usable then
        email.subject == ParsedSubject(ReplyLines(reply.value)) && email.content == ParsedContent(ReplyLines(reply.value))
      else
        email.subject == FallbackSubject(job) && email.content == FallbackContent(job)
  {
    FallbackNonEmpty(job);
    if portfolio.None? {
      return GeneratedEmailData(id, FallbackSubject(job), FallbackContent(job), job, [], timestamp);
    }
    var links := portfolio.value;
    var reply := llm(PromptFor(job, links));
    var subject, content;
    if reply.None? {
      subject, content := FallbackSubject(job), FallbackContent(job);
    } else {
      subject, content := ParseReply(reply.value);
      if subject == "" || content == "" {
        subject, content := FallbackSubject(job), FallbackContent(job);
      }
    }
    email := GeneratedEmailData(id, subject, content, job, links, timestamp);
  }
}
