# Outreach Pro, modelled in Dafny

Outreach Pro turns a company's careers page into cold outreach emails:
- the React frontend takes a careers URL, shows the extracted jobs and displays the email generated for the chosen job;
- it also keeps a browsable history of generated emails and exports an email as a text or PDF file;
- a Python backend scrapes the page, asks a language model for the jobs and for the email, and falls back to fixed demonstration jobs and a template email when the model fails;
- the backend stores users and per-user email histories in memory.

The project models the logic these parts own:

| file | module | models |
|---|---|---|
| `history_view.dfy` | `HistoryView` | History page (`src/pages/History.tsx`): search and company filters, page slicing, page count, "Showing x to y", distinct companies, and the component state as the class `HistoryPage` |
| `dashboard.dfy` | `Dashboard` | Three-step wizard (`src/pages/Dashboard.tsx`) as the class `Wizard`; each handler is split at its `await` into a Begin and a Finish half |
| `email_generator_form.dfy` | `EmailGeneratorForm` | URL form (`src/components/EmailGenerator.tsx`): the trim guard, the error line and the disabled predicate |
| `history_store.dfy` | `HistoryStore` | Backend history store (`backend/services/history_service.py`): save, newest-first listing by a stable descending sort, delete by id |
| `auth_store.dfy` | `AuthStore` | Backend user store (`backend/services/auth_service.py`): signup, login, lookup by id, over the `users` and `user_emails` maps |
| `email_generator_service.dfy` | `EmailGeneratorService` | Email generator (`backend/services/email_generator.py`): portfolio text, reply-parsing loop, fallback template, assembly of the result |
| `job_extractor.dfy` | `JobExtractor` | Job extractor (`backend/services/job_extractor.py`): company name from the URL, demonstration jobs, jobs built from the model's answer, failure paths |
| `auth_context.dfy` | `AuthContext` | Client session (`src/context/AuthContext.tsx`) as the class `AuthProvider` over the user, the loading flag and the `auth-token` cookie |
| `export_service.dfy` | `ExportService` | Export (`src/services/exportService.ts`): file names, the text file's contents, the placement of the PDF's text blocks |

Shared modules:
- `Wrappers`: `Option` and `Result`.
- `Schemas`: the records of `backend/models/schemas.py`.
- `Strings`: the string operations both languages need:
  - JavaScript `trim` and Python `strip`, each with its own whitespace set;
  - ASCII lower-casing and Python `str.title`;
  - `str.find`, `str.split`, `join`, `"".join`;
  - `str.replace(pat, "")`;
  - substring search.

Opaque collaborators are parameters:
- the language model's reply;
- the fetched page text;
- the portfolio lookup;
- uuids and timestamps;
- the bcrypt check, the hashed password and the JWT;
- the WHATWG URL parser's verdict;
- the local date string;
- jsPDF's line wrapping.

A `None` or `Failure` stands for a raised exception or a rejected promise.

## Model

| member | source | states |
|---|---|---|
| HistoryView.FilterBy | src/pages/History.tsx:41-52 | an email occurs in the result exactly as many times as in the input when it passes the criterion, and not at all otherwise |
| HistoryView.FilterIsSubsequence | src/pages/History.tsx:37-55 | filtering keeps the order of `emails`: the result is a subsequence |
| HistoryView.FilterTwice | src/pages/History.tsx:40-53 | the search filter followed by the company filter is one filter by the conjunction of both |
| HistoryView.FilterByEmpty | src/pages/History.tsx:38-53 | with an empty search term and an empty company filter the list is `emails` unchanged |
| HistoryView.FilterBothOneEmpty | src/pages/History.tsx:40-53 | an empty term (or company) drops that test, because `includes("")` always holds |
| HistoryView.FilterEmails | src/pages/History.tsx:37-55 | `filterEmails`: the search filter when the term is non-empty, then the company filter when the company is non-empty; its meaning is stated by `FilterEmailsIsFilter` and `FilterEmailsSpec` |
| HistoryView.FilterEmailsIsFilter | src/pages/History.tsx:37-55 | `filterEmails` with its two `if`s equals the filter by the conjunction of both tests |
| HistoryView.FilterEmailsSpec | src/pages/History.tsx:37-55 | the filtered list is an order-preserving subsequence of `emails`; an email is in it iff it passes both the search and the company test, and then as many times as in `emails`; with both inputs empty it is `emails` |
| HistoryView.MatchesSearchIff | src/pages/History.tsx:40-46 | an email passes the search iff the lowercased term occurs in the lowercased subject, job title or company |
| HistoryView.SliceIndex | src/pages/History.tsx:72-75 | `slice` clamps each bound into `0..n`; a negative bound counts from the end, and one below `-n` becomes 0 |
| HistoryView.PageItems | src/pages/History.tsx:72-75 | `paginatedEmails`: the slice from `(page-1)*10` to `page*10`; `PageItemsShape`, `PagesCoverList` and `ShowingCountsPage` state what it holds |
| HistoryView.TotalPages | src/pages/History.tsx:77 | `Math.ceil(n / 10)` is the least page count that covers `n` emails; it is 0 iff the list is empty |
| HistoryView.PageItemsShape | src/pages/History.tsx:72-75 | page `p` holds at most 10 emails: `filtered[(p-1)*10 .. min(p*10, n))`, and none when `(p-1)*10 >= n` |
| HistoryView.PageInRangeNonEmpty | src/pages/History.tsx:72-77 | for a page between 1 and the page count, the page is empty iff the filtered list is |
| HistoryView.PagesCoverList | src/pages/History.tsx:72-77 | the pages 1, 2, … concatenated give back the whole filtered list |
| HistoryView.PagesFromSuffix | src/pages/History.tsx:72-77 | the pages from `p` on concatenate to the list from index `(p-1)*10` |
| HistoryView.ShowingCountsPage | src/pages/History.tsx:210-211 | the "Showing x to y" range counts exactly the emails on the current page |
| HistoryView.Companies | src/pages/History.tsx:79 | one company per email, in order |
| HistoryView.Distinct | src/pages/History.tsx:79 | `new Set` keeps every value once and no other value |
| HistoryView.DistinctFirstOccurrenceOrder | src/pages/History.tsx:79 | the set's spread lists values in order of first occurrence |
| HistoryView.UniqueCompanies | src/pages/History.tsx:79 | `[...new Set(emails.map(e => e.jobListing.company))]`; `UniqueCompaniesSpec` states what it holds |
| HistoryView.UniqueCompaniesSpec | src/pages/History.tsx:79 | `uniqueCompanies` holds each company of the unfiltered emails once, in first-occurrence order |
| HistoryView.HistoryPage.constructor | src/pages/History.tsx:9-16 | initial state: no emails, empty filters, page 1, loading |
| HistoryView.HistoryPage.Refilter | src/pages/History.tsx:37-57 | the view is recomputed from `emails` and both filters, and the page goes back to 1 |
| HistoryView.HistoryPage.LoadHistory | src/pages/History.tsx:26-35 | a fetched list replaces `emails` and refilters to page 1; a failed fetch changes nothing but the loading flag, which ends false |
| HistoryView.HistoryPage.PagerShown | src/pages/History.tsx:207 | the pager renders only when there is more than one page |
| HistoryView.HistoryPage.PreviousDisabled | src/pages/History.tsx:217 | "Previous" is disabled on page 1; `ClickPrevious` requires it enabled |
| HistoryView.HistoryPage.NextDisabled | src/pages/History.tsx:237 | "Next" is disabled on the last page; `ClickNext` requires it enabled |
| HistoryView.HistoryPage.SetSearchTerm | src/pages/History.tsx:22-24 | a changed term refilters and resets to page 1; setting the same term changes nothing |
| HistoryView.HistoryPage.SetFilterCompany | src/pages/History.tsx:22-24 | a changed company refilters and resets to page 1; setting the same value changes nothing |
| HistoryView.HistoryPage.ClickPrevious | src/pages/History.tsx:216-217 | when enabled, goes one page back and stays within range; the filtered list is not recomputed |
| HistoryView.HistoryPage.ClickNext | src/pages/History.tsx:236-237 | when enabled, goes one page forward and stays within range |
| HistoryView.HistoryPage.ClickPageNumber | src/pages/History.tsx:222-226 | button `i` selects page `i + 1`, within range |
| Dashboard.Wizard.constructor | src/pages/Dashboard.tsx:27-32 | step `input`, empty URL, no jobs, no selected job, no email, not loading |
| Dashboard.Wizard.BeginUrlSubmit | src/pages/Dashboard.tsx:34-35 | only the loading flag is set before the extraction call |
| Dashboard.Wizard.FinishUrlSubmit | src/pages/Dashboard.tsx:36-46 | success stores the jobs (even none) and the URL and moves to `jobs`; failure leaves step, URL and jobs; loading ends false |
| Dashboard.Wizard.HandleUrlSubmit | src/pages/Dashboard.tsx:34-47 | the whole handler when nothing interleaves with the call |
| Dashboard.Wizard.BeginJobSelect | src/pages/Dashboard.tsx:49-51 | the job is recorded as selected before the request, so it stays selected whatever the outcome |
| Dashboard.Wizard.FinishJobSelect | src/pages/Dashboard.tsx:52-61 | success stores the email and moves to `email`; failure leaves step and email; loading ends false |
| Dashboard.Wizard.HandleJobSelect | src/pages/Dashboard.tsx:49-62 | the whole handler when nothing interleaves with the call |
| Dashboard.Wizard.HandleReset | src/pages/Dashboard.tsx:64-70 | back to `input` with every field cleared except the loading flag |
| Dashboard.Wizard.BackFromJobs | src/pages/Dashboard.tsx:118 | only the step changes, to `input`; the fetched jobs are kept |
| Dashboard.Wizard.BackFromEmail | src/pages/Dashboard.tsx:127 | only the step changes, to `jobs` |
| Dashboard.Wizard.ShowsEmail | src/pages/Dashboard.tsx:123 | the email view renders only on the `email` step with an email, and in every reachable state the step alone decides |
| Dashboard.StaleAnswerAfterReset | src/pages/Dashboard.tsx:49-70 | two cards clicked while loading, the first answer, a reset from the email view, then the second answer: the wizard ends on the email step with the second email and no selected job, URL or jobs |
| Dashboard.SecondSelectWhileLoading | src/pages/Dashboard.tsx:49-51 | a second job can be selected while the first request is in flight |
| EmailGeneratorForm.HandleSubmit | src/components/EmailGenerator.tsx:12-17 | `onSubmit` is called iff the URL is not all whitespace, and then with exactly the trimmed URL, which starts and ends with a non-space |
| EmailGeneratorForm.IsValidUrl | src/components/EmailGenerator.tsx:19-26 | `isValidUrl`: the URL parser's verdict, never an exception |
| EmailGeneratorForm.ShowsError | src/components/EmailGenerator.tsx:54-56 | the "Please enter a valid URL" line shows for a non-empty URL the parser rejects |
| EmailGeneratorForm.SubmitDisabled | src/components/EmailGenerator.tsx:61 | the button is disabled while loading, for a blank URL, or for a URL the parser rejects |
| EmailGeneratorForm.EnabledButtonSubmits | src/components/EmailGenerator.tsx:59-61 | an enabled button means not loading, a parsable URL, and a submit of the trimmed URL |
| EmailGeneratorForm.ErrorDisablesSubmit | src/components/EmailGenerator.tsx:54-61 | whenever the "valid URL" error shows, the button is disabled |
| EmailGeneratorForm.HandlerIgnoresValidity | src/components/EmailGenerator.tsx:12-61 | for every non-blank URL the handler submits the trimmed URL whatever the parser and the loading flag say, while the button is disabled whenever the parser rejects the URL |
| EmailGeneratorForm.PaddedWordSubmitted | src/components/EmailGenerator.tsx:14-15 | `" careers "`, which is no URL, is submitted as `"careers"` |
| EmailGeneratorForm.SubmittedValueIsTrimmed | src/components/EmailGenerator.tsx:14-15 | the submitted value is a fixed point of the guard: submitting it again passes it unchanged |
| HistoryStore.InsertMultiset | backend/services/history_service.py:34 | one insertion step of the sort adds exactly the inserted email |
| HistoryStore.InsertOrdered | backend/services/history_service.py:34 | inserting into a newest-first list keeps it newest first |
| HistoryStore.InsertStable | backend/services/history_service.py:34 | insertion keeps emails with equal timestamps in their original order |
| HistoryStore.NewestFirst | backend/services/history_service.py:33-34 | `sort(key=timestamp, reverse=True)` as repeated stable insertion; `NewestFirstSpec` states what it returns |
| HistoryStore.NewestFirstSpec | backend/services/history_service.py:33-34 | the sort returns a permutation ordered by timestamp string, descending, and stable among equal timestamps |
| HistoryStore.SortNewestFirst | backend/services/history_service.py:33-34 | the insertion loop computes the newest-first order |
| HistoryStore.WithoutId | backend/services/history_service.py:44-47 | an email whose id differs occurs as many times as before; one with the id does not occur |
| HistoryStore.WithoutIdKeepsOrder | backend/services/history_service.py:44-47 | the emails that stay keep their relative order: the result is a subsequence |
| HistoryStore.WithoutIdShorterIff | backend/services/history_service.py:43-49 | the list shrinks iff some email had the id |
| HistoryStore.WithoutAbsentId | backend/services/history_service.py:44-47 | deleting an id no email has leaves the list as it was |
| HistoryStore.HistoryService.constructor | backend/services/history_service.py:6-8 | no user has a history |
| HistoryStore.HistoryService.SaveEmail | backend/services/history_service.py:10-18 | the user's list (empty if unseen) grows by the email at its end; every other user's history is unchanged |
| HistoryStore.HistoryService.GetUserHistory | backend/services/history_service.py:20-36 | an unknown user gets `[]`; otherwise the stored list sorted newest first; the store is not modified |
| HistoryStore.HistoryService.DeleteEmail | backend/services/history_service.py:38-49 | an unknown user gives False and no change; otherwise every email with the id goes, the rest keep their order, and the result is True iff one went |
| AuthStore.AuthService.constructor | backend/services/auth_service.py:10-17 | both maps start empty |
| AuthStore.AuthService.Signup | backend/services/auth_service.py:31-57 | a registered email fails with "User already exists" and changes nothing; otherwise the new user with default preferences is stored under a fresh id and indexed by email |
| AuthStore.AuthService.Login | backend/services/auth_service.py:59-74 | success iff the email is registered and the password checks; an unknown email and a wrong password give the same "Invalid credentials"; the stores are not modified |
| AuthStore.AuthService.GetUserById | backend/services/auth_service.py:76-80 | the stored user iff the id is known, else "User not found" |
| AuthStore.SignupThenLogin | backend/services/auth_service.py:31-74 | after a signup, logging in with the same password returns the signed-up user |
| EmailGeneratorService.Bullets | backend/services/email_generator.py:64 | one `"- " + link` line per link, in order |
| EmailGeneratorService.PortfolioText | backend/services/email_generator.py:64-66 | the bullets joined by '\n', or the fixed line when that is empty; `PortfolioTextLines` states its shape |
| EmailGeneratorService.PortfolioTextLines | backend/services/email_generator.py:64-66 | no links give the fixed line; otherwise the text starts with the first bullet and splits back into one bullet per link |
| EmailGeneratorService.PortfolioTextAmbiguous | backend/services/email_generator.py:64-66 | one link reading "No specific portfolio links available" gives the same prompt text as no links |
| EmailGeneratorService.ReplyLines | backend/services/email_generator.py:80 | `strip().split('\n')` gives at least one line |
| EmailGeneratorService.EmailLineIndex | backend/services/email_generator.py:84-89 | the scan stops at the first line starting with `EMAIL:` |
| EmailGeneratorService.LastSubjectIndex | backend/services/email_generator.py:84-86 | the subject comes from the last `SUBJECT:` line of the scanned prefix |
| EmailGeneratorService.ParsedSubject | backend/services/email_generator.py:80-89 | the subject the parsing loop ends with, defined from `LastSubjectIndex` and `EmailLineIndex`; `ParseReply` proves the loop computes it |
| EmailGeneratorService.ParsedContent | backend/services/email_generator.py:80-89 | the stripped lines after the first `EMAIL:` line, joined by '\n'; `ParseReply` proves the loop computes it |
| EmailGeneratorService.ParseReply | backend/services/email_generator.py:80-89 | the loop with its `break` yields the last `SUBJECT:` line before the first `EMAIL:` line, marker removed and stripped, and the stripped lines after that `EMAIL:` line |
| EmailGeneratorService.ParseFormattedReply | backend/services/email_generator.py:80-89 | a reply laid out as the prompt asks (`SUBJECT: s`, blank line, `EMAIL:`, body) parses back to exactly `s` and the body |
| EmailGeneratorService.Take | backend/services/email_generator.py:130 | `skills[:n]` is the first `min(n, len)` skills |
| EmailGeneratorService.FallbackSubject | backend/services/email_generator.py:126 | the fallback subject f-string; `FallbackGreets` and `FallbackNonEmpty` state its properties |
| EmailGeneratorService.FallbackContent | backend/services/email_generator.py:128-148 | the fallback body f-string; `FallbackGreets`, `FallbackNamesRole`, `FallbackListsSkills` and `FallbackOffersExpertise` state what it contains |
| EmailGeneratorService.FallbackGreets | backend/services/email_generator.py:126-128 | the subject starts "Solve Your " + title; the body starts "Dear " + company + " Hiring Team," |
| EmailGeneratorService.FallbackNonEmpty | backend/services/email_generator.py:124-150 | the fallback subject and body are never empty, so the result always has both |
| EmailGeneratorService.FallbackNamesRole | backend/services/email_generator.py:130 | the body names the job title in "hiring for a … position." |
| EmailGeneratorService.FallbackListsSkills | backend/services/email_generator.py:130 | the body lists the first three skills (at most) joined by ", " |
| EmailGeneratorService.FallbackOffersExpertise | backend/services/email_generator.py:137 | the body lists the first two skills (at most) joined by ", " |
| EmailGeneratorService.GenerateEmail | backend/services/email_generator.py:55-122 | the result has the given id, timestamp and job; parsed subject and body when both are non-empty, else the fallback pair; portfolio links as found, or `[]` with the fallback when the lookup fails |
| JobExtractor.CompanyName | backend/services/job_extractor.py:107-115 | `_extract_company_name`: the first '.'-label of the host after "//", title-cased, or "Company" on the IndexError; stated by `CompanyNameWithoutScheme`, `CompanyNameOfHost` and `CompanyNameExample` |
| JobExtractor.CompanyNameWithoutScheme | backend/services/job_extractor.py:107-115 | a URL without "//" gives "Company" |
| JobExtractor.CompanyNameOfHost | backend/services/job_extractor.py:111-113 | for `scheme//first` followed by nothing, a path or a dotted suffix, the name is `first` title-cased |
| JobExtractor.CompanyNameExample | backend/services/job_extractor.py:113 | `https://acme.com/careers` gives "Acme" |
| JobExtractor.MockJobsFor | backend/services/job_extractor.py:117-162 | `_get_mock_jobs`: the catalogue's four jobs at the given company; `MockJobsShape` states what it holds |
| JobExtractor.MockJobsShape | backend/services/job_extractor.py:117-162 | exactly four demonstration jobs, titled in the fixed order, each at the given company, the k-th with id `uuid(k)`; the ids are distinct only when the `uuid` parameter is |
| JobExtractor.MockJobs | backend/services/job_extractor.py:150-162 | the loop builds the catalogue's jobs in order, the k-th with the k-th id and the given company |
| JobExtractor.Truncate | backend/services/job_extractor.py:72 | the prompt gets the first `min(len, 8000)` characters of the page text |
| JobExtractor.JobFromParsedFields | backend/services/job_extractor.py:86-95 | the model's company field is ignored in favour of the URL's; a missing title, experience or description becomes "", missing skills `[]` |
| JobExtractor.ExtractedJobs | backend/services/job_extractor.py:47-105 | what `extract_jobs` returns on each of its three paths; `ExtractJobs`, `ExtractedJobsCompany` and `ExtractedJobsCount` state it |
| JobExtractor.ExtractJobs | backend/services/job_extractor.py:47-105 | the loop and the two `except`s compute the specified jobs: "Unknown Company" demonstration jobs when the fetch fails, the URL company's demonstration jobs when the model fails, otherwise one job per answer object |
| JobExtractor.ExtractedJobsCompany | backend/services/job_extractor.py:47-105 | every job is at the URL's company, or at "Unknown Company" when the page could not be fetched, whatever the model answers |
| JobExtractor.ExtractedJobsCount | backend/services/job_extractor.py:84-105 | four jobs on either failure path, otherwise as many as the answer lists (none when the "jobs" key is missing) |
| AuthContext.AuthProvider.constructor | src/context/AuthContext.tsx:35-36 | no user, loading |
| AuthContext.AuthProvider.StoredToken | src/context/AuthContext.tsx:39-40 | a token is sent iff the cookie is present and non-empty |
| AuthContext.AuthProvider.BeginStartup | src/context/AuthContext.tsx:38-53 | without a token loading ends at once and no call is made; with one, the call is made with it |
| AuthContext.AuthProvider.FinishStartup | src/context/AuthContext.tsx:41-50 | a verified token sets the user; a rejected one removes the cookie; loading ends either way |
| AuthContext.AuthProvider.Startup | src/context/AuthContext.tsx:38-54 | the start-up effect as a whole: no token leaves user and cookie; a rejected token leaves the user and removes the cookie; loading ends false |
| AuthContext.AuthProvider.FinishSignIn | src/context/AuthContext.tsx:56-60 | success sets the cookie to the token for 7 days and the user; failure rethrows with nothing touched |
| AuthContext.AuthProvider.Login | src/context/AuthContext.tsx:56-60 | `login` succeeds iff the backend does; on success cookie and user as above, on failure nothing changes |
| AuthContext.AuthProvider.Signup | src/context/AuthContext.tsx:62-66 | `signup` has the same effect as `login`, for the signup answer |
| AuthContext.AuthProvider.Logout | src/context/AuthContext.tsx:68-71 | the cookie is removed and the user cleared |
| AuthContext.UseAuth | src/context/AuthContext.tsx:26-32 | the context value inside a provider, otherwise the error "useAuth must be used within an AuthProvider" |
| AuthContext.LoginDuringStartup | src/context/AuthContext.tsx:38-60 | a login completing before a stale token is rejected ends signed in with no cookie |
| ExportService.TxtFileName | src/services/exportService.ts:60 | `outreach-email-<id>.txt`; `FileNamesIdentify` states that it determines the id |
| ExportService.PdfFileName | src/services/exportService.ts:35 | `outreach-email-<id>.pdf`; `FileNamesIdentify` states that it determines the id |
| ExportService.FileNamesIdentify | src/services/exportService.ts:60 | `outreach-email-<id>.txt` (and `.pdf`, line 35) determines the id, and a text name never equals a PDF name |
| ExportService.TxtContent | src/services/exportService.ts:39-54 | the trimmed template of `exportToTXT`; `TxtWithoutLinks`, `TxtWithLinks` and `TxtLayout` state its exact text |
| ExportService.TxtWithoutLinks | src/services/exportService.ts:39-54 | with no links the trimmed text ends exactly at "Portfolio Links:" |
| ExportService.TxtWithLinks | src/services/exportService.ts:52-54 | with links the text ends with a line break and the `"- " + link` lines joined by '\n', only the last trimmed |
| ExportService.TxtLayout | src/services/exportService.ts:39-54 | the text starts with the title, the `=` rule and "Subject: " + subject, followed in order by the content, "Target Job: " + title + " at " + company, the date and the links label |
| ExportService.PdfPlacements | src/services/exportService.ts:8-32 | the seven text blocks of `exportToPDF` with their positions and font sizes; `PdfTopToBottom` states their layout |
| ExportService.PdfTopToBottom | src/services/exportService.ts:8-32 | each block sits strictly below the previous one at x = 20; "Target Job:" is at `4 * lines + 90` and the job line 10 below it |
| ExportService.ExportToPdf | src/services/exportService.ts:5-36 | the calls place exactly the specified blocks, each with the font size then in force, and save as `outreach-email-<id>.pdf` |

## Left out

- HTTP plumbing is not modelled: the FastAPI routes and JWT dependency in `backend/main.py`, and the axios wrappers. They only forward requests and responses.
- Scraping, the language models, prompt rendering and JSON decoding are parameters.
  - The email prompt is modelled only as the record of its variables (`PromptFor`).
  - A decoded answer that fails `JobListing` validation counts as an unusable answer, which is where the source's `except` sends it.
- `portfolio_service.py` is not part of this model: the links it returns are a parameter, `None` when the lookup raises.
- uuids and timestamps are parameters; the k-th job built gets `uuid(k)`.
- bcrypt hashing and checking and the JWT are parameters: `hashed`, `checkPassword`, `token`.
- The WHATWG URL parser behind `new URL` is an uninterpreted predicate.
- Lower-casing in the history search and Python `str.title` are ASCII-only. Other characters are left unchanged.
- `toLocaleString` is a parameter, and so is jsPDF's `splitTextToSize`.
- The PDF document is modelled only as the list of placed text blocks and the file name. Rendering, the Blob, the download link, toasts and the clipboard are left out.
- The history store keeps `GeneratedEmailData` values directly. Converting to and from dicts with `.dict()` and `GeneratedEmailData(**d)` is an identity on valid data, so it is left out.
- The browser's expiry of cookies is left out.
- Async interleavings are modelled only as far as splitting each handler at its `await` allows, shown by the scenario members `Dashboard.StaleAnswerAfterReset`, `Dashboard.SecondSelectWhileLoading` and `AuthContext.LoginDuringStartup`. React batching and re-render timing are left out.
- The presentational pages and components are left out: Landing, About, Help, Contact, Profile, Navbar, JobListings and GeneratedEmail.
- JobExtractor.CompanyNameOfHost: covers URLs whose scheme has no '/' and whose first host label is followed by nothing, '/' or '.'. For other URLs (a "//" inside the host, say) only the definition `CompanyName` speaks.
- EmailGeneratorService.ParseFormattedReply: covers replies in the layout the prompt asks for. Other replies are described by `ParseReply` against `ParsedSubject`/`ParsedContent`, not by a round trip.

## Behaviour worth noting

- No busy flag rejects a second selection while a call is in flight. The URL form's button and each job card's "Generate Email" button are disabled while loading, but the card's own click handler (`src/components/JobListings.tsx:39`) is not, and it starts a selection.
- "Back" from the job list keeps the fetched jobs.
- A successful extraction moves to the job list even when no jobs came back.
- The selected job is recorded before the generation call and stays recorded when the call fails.
- A late answer is applied even after a reset, so the email step can show an email with no selected job.
- The history's company filter is applied on top of the search.
- The backend sorts the history newest first by comparing timestamp strings. The client does not re-sort.
