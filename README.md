# AI Recruitment Portal: the auth modal, the job-description codec and the guards, in Dafny

This project models the logic core of the AI Recruitment Portal. The portal is a FastAPI server (`server.py`, `auth/`) with a vanilla-JS page script (`static/portal.js`) on top.

The page side covers:

- **The sign-in / sign-up modal.** This is the state the page keeps (`intentRole`, `authMode`, each role panel's `dataset.role` and chips, the six OTP slots and the slot last focused by the handlers, the visible tab and OTP group, the form fields). Besides the state, it covers what every event does to that state, the form each button posts and where a successful verify redirects.
  - It is written twice. `AuthFlow` is a transition system over a `Modal` value, with the properties proved there. `AuthModal` is the page as it runs: a controller object, role-panel objects whose chips are arrays, and the OTP slots as an array. Each event handler is a method whose new `State()` is the `AuthFlow` transition of the old one.
- **The page helpers:**
  - the job-list filter and the job cache it filters (`JobFilters`);
  - the applicants' match percent (`MatchScore`);
  - the CSRF token lookup and the header built from it (`CsrfClient`);
  - the local status cards (`CandidateLedger`).

The server side covers:

- **The CSRF check.** `ServerCsrf` models this check on its own and links it to the client's header.
- **The job-description codec.** Job type, location, salary, category and company are folded into the stored description when a job is posted or updated, and read back out when jobs are listed (`JobDescription`).
- **The recruiter endpoints' loops.** These collect applications and count statistics (`RecruiterApi`).
- **The sign-up and login guard chains** and the tables they write (`LoginManager`), plus `require_role` (`RoleAuth`).

Some things outside the model become inputs:

- **Server replies.** Every server reply the page awaits is an input (`Reply`, `JobsReply`). Each event and its reply are taken as one step.
- **Database reads.** `list_applicants_for_job` is a function of the job id that may raise (`Fetch`).
- **Crypto and the OTP store.** Password checking, code verification, code generation and hashing are parameters.
- **`decodeURIComponent`** is a parameter that may throw.

`Strings` holds the string operations the code uses: `strip`/`trim` (each with its own language's white space), `lower`/`toLowerCase` on ASCII letters, `includes`/`in`, `startswith`, `split` on one character, `replace(p, "")`, `join` and JavaScript's `length` in UTF-16 code units. `Wrappers` holds `Option`.

Two behaviours are easy to misread and are modelled as the code has them. A failed job fetch replaces the cache with `[]` (static/portal.js:533-535). After a sign-up, `authMode` is 'signup' (static/portal.js:370).

## Model

| member | source | states |
|---|---|---|
| AuthFlow.OpenModalMeaning | static/portal.js:111-119 | opening sets `intentRole` to the given role or 'candidate', selects login mode and tab, sets both panels to `intentRole` with one chip flag per chip, exactly the chips of that role active, and every other field (slots, focus, listeners, login and sign-up inputs) as it was |
| AuthFlow.SetActiveTabMeaning | static/portal.js:125-142 | the mode is 'signup' exactly for the argument 'signup', the shown tab follows it, and nothing else (no panel role) changes |
| AuthFlow.ClickChipMeaning | static/portal.js:152-174 | a chip click sets only its own panel to the chip's role; afterwards the panel has one flag per chip and exactly the chips with that role are active |
| AuthFlow.ActiveFor | static/portal.js:155-160 | the chip flags have one entry per chip, each true iff the chip's `data-role` is the role |
| AuthFlow.InputSlotMeaning | static/portal.js:191-195 | typing into slot i stores the value; the focus moves to i+1 exactly when listeners are attached, the value is non-empty and i is not the last slot; the code is the slots joined around the new value |
| AuthFlow.KeyDownMeaning | static/portal.js:196-200 | Backspace in an empty slot i>0 moves the focus to i-1 once listeners are attached; otherwise nothing changes |
| AuthFlow.ConcatSplit | static/portal.js:204-206 | the joined code splits around any slot: the slots before it, then it, then the slots after |
| AuthFlow.VerifySendsIffSixChars | static/portal.js:249-265 | verify posts exactly when the joined code has JavaScript length 6, counted in UTF-16 code units, and then posts that code with the current mode, the login role and the trimmed login fields |
| AuthFlow.LettersAccepted | static/portal.js:249-253 | six letters pass the client check: there is no digit test |
| AuthFlow.ShowOtpClears | static/portal.js:188-190 | after the success tail, the OTP group is shown, listeners are on, every slot is empty (the code is ""), and the first slot has the focus |
| AuthFlow.ShowOtpKeepsMode | static/portal.js:317-319 | showing the OTP group marks it shown and leaves `authMode` as it was |
| AuthFlow.SuccessClearsSlots | static/portal.js:237-240 | every successful send, resend or sign-up start leaves an empty code |
| AuthFlow.SignupSuccessClears | static/portal.js:364-372 | a successful sign-up start leaves an empty code |
| AuthFlow.InvalidLoginInputChangesNothing | static/portal.js:215-218 | send and resend with an empty trimmed e-mail or password post nothing, change nothing and show an error |
| AuthFlow.InvalidSignupInputChangesNothing | static/portal.js:330-343 | sign-up with an empty trimmed name, e-mail or password, or differing passwords, posts nothing and changes nothing |
| AuthFlow.SendMeaning | static/portal.js:208-245 | send posts iff both trimmed fields are non-empty, always with mode 'login' and the login role; a failed reply changes nothing; success sets `authMode` to login and shows the OTP group |
| AuthFlow.ResendMeaning | static/portal.js:288-323 | resend posts iff both trimmed fields are non-empty, with the current `authMode`, which it never changes; a failed reply changes nothing |
| AuthFlow.SignupHandoff | static/portal.js:330-372 | after sign-up success the login fields hold the trimmed sign-up credentials, the login panel has the sign-up role (or 'candidate') with exactly that role's chips active, the login tab and the OTP group show, and `authMode` is 'signup' |
| AuthFlow.AfterSignupMeaning | static/portal.js:364-372 | the sign-up success tail prefills the login fields, sets the login panel's role and its chips to that role, shows the login tab and the OTP group and leaves `authMode` 'signup', keeping the sign-up panel and `intentRole` |
| AuthFlow.VerifyAfterSignup | static/portal.js:256-266 | the verify that follows a sign-up posts mode 'signup' with the sign-up role and credentials and the typed code, once that code has JavaScript length 6 |
| AuthFlow.VerifyAfterHandoff | static/portal.js:256-266 | from the sign-up success state with a code of JavaScript length 6, verify posts mode 'signup', the sign-up role, the prefilled credentials and the code |
| AuthFlow.RedirectByServerRole | static/portal.js:277-280 | the redirect is /recruiter/dashboard exactly when the server's role is 'recruiter', else /candidate/dashboard |
| AuthFlow.RedirectOnlyOnOk | static/portal.js:250-282 | a redirect happens iff the reply is ok and the code had JavaScript length 6 (UTF-16 code units) |
| AuthFlow.WideCharacterRefused | static/portal.js:249-253 | six one-character slots ending in a character outside the Basic Multilingual Plane make a six-character code of JavaScript length 7, which is refused with no post |
| AuthFlow.TypingSixDigits | static/portal.js:188-206 | typing 4,2,1,0,5,9 into the cleared slots walks the focus to the last slot and gives code "421059" |
| AuthModal.RolePanel.constructor | static/portal.js:152-163 | a panel starts with no role and no chip active |
| AuthModal.RolePanel.SetPanelRole | static/portal.js:152-163 | the chip loop leaves exactly the chips of the role active and sets the panel's role |
| AuthModal.AuthModalController.constructor | static/portal.js:70-71 | the initial page state: the module defaults, empty slots without listeners, and both panels with role 'candidate' (lines 178-179); the panels, their chips and the slots are new objects |
| AuthModal.AuthModalController.SetActiveTab | static/portal.js:125-142 | the new state is the tab transition of the old |
| AuthModal.AuthModalController.OpenModalForRole | static/portal.js:111-119 | the new state is the open transition of the old |
| AuthModal.AuthModalController.ClickChip | static/portal.js:165-174 | the new state is the chip-click transition of the old |
| AuthModal.AuthModalController.Edit | static/portal.js:210-211 | typing into a form field changes that field only |
| AuthModal.AuthModalController.SetupOtpInputs | static/portal.js:188-202 | the slot loop clears every slot and attaches listeners; nothing else changes |
| AuthModal.AuthModalController.FocusFirst | static/portal.js:240 | the first slot gets the focus when there is one |
| AuthModal.AuthModalController.InputSlot | static/portal.js:191-195 | the new state is the input transition of the old |
| AuthModal.AuthModalController.KeyDown | static/portal.js:196-200 | the new state is the keydown transition of the old |
| AuthModal.AuthModalController.GetOtpCode | static/portal.js:204-206 | the join loop returns the slot values concatenated in slot order |
| AuthModal.AuthModalController.ShowOtp | static/portal.js:237-240 | shows the OTP group, clears the slots and focuses the first one |
| AuthModal.AuthModalController.SendOtp | static/portal.js:208-245 | the posted form, the toast and the new state are those of the send transition |
| AuthModal.AuthModalController.ResendOtp | static/portal.js:288-323 | the posted form, the toast and the new state are those of the resend transition |
| AuthModal.AuthModalController.CreateAccount | static/portal.js:327-377 | the posted form, the toast and the new state are those of the sign-up transition |
| AuthModal.AuthModalController.AfterSignup | static/portal.js:364-372 | the new state is the sign-up success tail of the old |
| AuthModal.AuthModalController.VerifyOtp | static/portal.js:247-286 | changes nothing and returns the verify transition's form, redirect and toast; it posts iff the joined slots have JavaScript length 6, in UTF-16 code units |
| AuthModal.ConcatSnoc | static/portal.js:204-206 | joining one more slot appends its value |
| CsrfClient.GetCsrfToken | static/portal.js:9-23 | the meta-then-cookie loop returns what the lookup specification gives |
| CsrfClient.MetaWins | static/portal.js:10-11 | a non-empty meta tag wins over any cookie |
| CsrfClient.FirstCsrfSegmentDecides | static/portal.js:14-19 | the first segment whose trimmed key is `csrf` decides, and a value that fails to decode gives "" |
| CsrfClient.NoCsrfSegmentEmpty | static/portal.js:14-22 | with no `csrf` segment the token is "" |
| CsrfClient.ValueStopsAtSecondEquals | static/portal.js:16 | for `k=v=w` the key is `k` and the value is cut at the second '=' |
| CsrfClient.SecondCookie | static/portal.js:12-19 | the jar `a; csrf=v` gives the decoded `v`: the space after ';' is trimmed from the key |
| CsrfClient.CsrfSegment | static/portal.js:16-17 | ` csrf=v` is a csrf segment whose value is `v` |
| CsrfClient.CsrfHeaders | static/portal.js:25-28 | the header map has the `X-CSRF-Token` key iff the token is non-empty, and no other key |
| CsrfClient.HeadersAcceptedIffTokenMatchesCookie | server.py:63-69 | with the page's headers a header-only endpoint accepts exactly when the token is non-empty and equals the `csrf` cookie |
| ServerCsrf.ValidateCsrfMeaning | server.py:63-69 | the guard holds iff the cookie is present and non-empty and equals the form token or the header |
| ServerCsrf.NoCookieRejects | server.py:66-67 | a missing or empty cookie is never accepted |
| ServerCsrf.EmptyTokensReject | server.py:67 | an empty form token with no usable header is never accepted |
| ServerCsrf.HeaderOnlyCall | server.py:379 | when the header is also the form token, the guard holds iff the header is non-empty and equals the cookie |
| JobDescription.AppendMetadata | server.py:388-391 | the four conditional appends add exactly the metadata block |
| JobDescription.ComposePosted | server.py:386-391 | the post handler's description is the company header (only for a non-empty company), the stripped body, then the metadata block |
| JobDescription.ComposeUpdated | server.py:413-417 | the update handler's description is the post encoding with no company |
| JobDescription.SplitMetadata | server.py:388-391 | with one-line values, the metadata block adds exactly its lines, in the fixed order, after the lines before it |
| JobDescription.SplitFieldText | server.py:388-391 | one conditional append adds its own line (after a blank line for Job Type), or nothing for an empty value |
| JobDescription.MetadataLinesLast | server.py:388-391 | among the metadata lines, a field's prefix is carried only by its own line, present iff the field is non-empty |
| JobDescription.FieldLinesLast | server.py:388-391 | one append's lines carry a prefix only when the field is that prefix's own and non-empty |
| JobDescription.PrefixesExclusive | server.py:309-316 | no line starts with two of the metadata prefixes |
| JobDescription.ApplyFieldLineEffect | server.py:309-316 | one line sets exactly the field whose prefix it starts with, to the value without the prefix, stripped |
| JobDescription.FieldLinesLastWins | server.py:308-316 | after the line loop, each field holds the value of the last line with its prefix, or its earlier value; no other key changes |
| JobDescription.LastWithAppend | server.py:308-316 | the last line with a prefix in two joined blocks is the later block's, if it has one |
| JobDescription.LastWith | server.py:308-316 | a line found for a prefix starts with it |
| JobDescription.ExtractFields | server.py:308-316 | the line loop gives what the line-by-line specification gives |
| JobDescription.AnnotatePublicJob | server.py:300-320 | one row of the public list gains the company and metadata its description encodes |
| JobDescription.AnnotatePublicJobs | server.py:299-320 | every row of the array is annotated in place, each by itself |
| JobDescription.AnnotateOwnJobs | server.py:330-340 | every row of a recruiter's list gains only its company, in place |
| JobDescription.HeaderFirstLine | server.py:302-305 | a description with a one-line company header starts with the company prefix and has the company line first |
| JobDescription.PostedRoundTrip | server.py:302-316 | a posted job reads back with the posted company stripped and each non-empty field stripped, overriding body lines; an empty field falls back to the last body line with its prefix |
| JobDescription.PostedOwnRoundTrip | server.py:333-337 | a posted job in the recruiter's own list gains only its company, which is the posted company stripped; only the company needs to be one line without the prefix, whatever the metadata holds |
| JobDescription.RecoveredField | server.py:308-316 | one field after the round trip is the posted value stripped, or the body's last line for that field |
| JobDescription.MetadataStartsWithBreak | server.py:388 | the metadata block is empty or starts with a line break |
| JobDescription.NoPrefixAfter | server.py:302 | metadata appended to a body that lacks the company prefix cannot produce the prefix |
| JobDescription.NoCompanyLineNoFields | server.py:317-338 | a description without the company prefix lists the placeholder company and no extracted field |
| JobDescription.UpdatedJobLosesMetadata | server.py:413-417 | an edited job (whose body has no company line) lists the placeholder company, and its metadata is not read back |
| RecruiterApi.Ids | server.py:351 | one id per job, in job order |
| RecruiterApi.TagAll | server.py:357-362 | each fetched application is tagged with the job id and title, in fetch order |
| RecruiterApi.TagInto | server.py:357-362 | the inner loop appends exactly the tagged applications of one job, in fetch order, after those already collected |
| RecruiterApi.RecruiterApplications | server.py:350-366 | the nested loops build the aggregated list the specification gives, whatever the `job_id` parameter |
| RecruiterApi.TitleOfFirst | server.py:360-361 | the title is that of the first job with the id, and "Unknown Job" only when no job has it |
| RecruiterApi.CollectedOwned | server.py:354-362 | applications collected over owned ids are each tagged with an owned job's id and title |
| RecruiterApi.AggregatedOwned | server.py:350-366 | every application in the reply carries the id and title of a job the recruiter owns |
| RecruiterApi.CollectedComplete | server.py:354-364 | every application of a job whose fetch did not raise is in the reply, tagged |
| RecruiterApi.CountActive | server.py:501 | the active count is at most the number of jobs |
| RecruiterApi.CountPending | server.py:515 | the pending count is at most the number of applications |
| RecruiterApi.CountHired | server.py:516 | the hired count is at most the number of applications |
| RecruiterApi.RecruiterStats | server.py:500-530 | the counting loop, including the stop at a raising fetch, gives the specified stats |
| RecruiterApi.PendingHiredBound | server.py:515-516 | pending and hired are disjoint, so they add up to at most the total |
| RecruiterApi.StatsBound | server.py:509-518 | in the reply, pending plus hired never exceeds the total |
| RecruiterApi.CountedBound | server.py:509-518 | the same bound holds for the counters along the loop |
| RecruiterApi.FailureStopsCounting | server.py:509-518 | a fetch that raises for job k drops the counts of job k and every later job |
| RecruiterApi.AllActiveWithoutStatus | server.py:501 | with no status on any job row, every job is active |
| LoginManager.SignupRoleCheckedFirst | auth/login_manager.py:29-30 | an invalid role gives "Invalid role" whatever the user table holds |
| LoginManager.SignupStartMeaning | auth/login_manager.py:28-34 | sign-up start succeeds, returning the issued code, iff the role is valid and no user has the e-mail in any case; else "User already exists" for a valid role |
| LoginManager.LoginStartMeaning | auth/login_manager.py:46-50 | login start issues a code iff the e-mail is registered, else "User not found" |
| LoginManager.PasswordCheckedBeforeOtp | auth/login_manager.py:57-60 | a wrong password gives "Invalid credentials" whatever the code verifier says |
| LoginManager.UnknownUserCheckedFirst | auth/login_manager.py:54-56 | an unknown e-mail gives "User not found" before password or code are looked at |
| LoginManager.LoginVerifyMeaning | auth/login_manager.py:53-61 | login verify succeeds iff the user exists, the password matches and the code verifies, and returns the stored user |
| LoginManager.AuthStore.constructor | database/db_manager.py:89-102 | empty tables |
| LoginManager.AuthStore.SignupStart | auth/login_manager.py:28-34 | on success exactly one code row with purpose 'signup' and the lower-cased e-mail is added (database/db_manager.py:111-118); otherwise nothing |
| LoginManager.AuthStore.LoginStart | auth/login_manager.py:46-50 | on success exactly one code row with purpose 'login' is added; otherwise nothing |
| LoginManager.AuthStore.SignupVerify | auth/login_manager.py:37-41 | a failing code gives "Invalid OTP" and creates no user; otherwise one user with the given name, lower-cased e-mail and role is inserted under an id no existing user holds, unless the table's constraints reject it |
| LoginManager.SignedUpUserCanLogIn | auth/login_manager.py:46-61 | a user just inserted can start and complete a login under any letter case of the e-mail |
| RoleAuth.RequireRoleMeaning | auth/role_auth.py:4-5 | the guard holds iff the user is a non-empty dictionary whose "role" is the role as text |
| RoleAuth.RequireRoleRejects | auth/role_auth.py:5 | no user, an empty dictionary or one without "role" passes no check |
| RoleAuth.RequireRoleUnique | auth/role_auth.py:5 | a user passes the guard for at most one role |
| JobFilters.ApplyMembership | static/portal.js:486-496 | a job is shown iff it is in the list and passes every box |
| JobFilters.ApplySubsequence | static/portal.js:486 | the shown jobs are a sub-list of the input, in input order |
| JobFilters.ApplyIdempotent | static/portal.js:478-497 | filtering the filtered list changes nothing |
| JobFilters.NoFiltersShowAll | static/portal.js:479-495 | empty boxes and no checked box show every job |
| JobFilters.ApplyAppend | static/portal.js:486 | filtering works job by job over joined lists |
| JobFilters.StricterFiltersNarrow | static/portal.js:492-494 | checking more boxes shows a sub-list of what was shown before |
| JobFilters.QueryCaseBlind | static/portal.js:478-487 | only the lower-cased query matters |
| JobFilters.QueryInTitlePasses | static/portal.js:487-488 | a query found in the title passes the search box |
| JobFilters.QuerySpansFields | static/portal.js:487-488 | the query is matched on the joined `title description skills` text, so it may span two fields |
| JobFilters.JobBoard.constructor | static/portal.js:72 | the cache starts empty |
| JobFilters.JobBoard.RenderCandidateJobs | static/portal.js:530-539 | the cache becomes the reply's jobs, or [] when the reply is not ok or the fetch failed; the shown jobs are the cache filtered |
| MatchScore.JsRound | static/portal.js:1072-1075 | the rounded value is within one half of the input, halves rounded up |
| MatchScore.Clamp | static/portal.js:1078 | the clamped value lies in [0, 100] and equals the input inside it |
| MatchScore.MatchPercent | static/portal.js:1067-1078 | the percent always lies in [0, 100] |
| MatchScore.NonFiniteShowsZero | static/portal.js:1068 | a non-finite score shows 0 |
| MatchScore.AboveOneIsPercent | static/portal.js:1070-1072 | a value above 1 is rounded as a percent and capped at 100 |
| MatchScore.FractionIsScaled | static/portal.js:1073-1075 | a value of at most 1 is scaled by 100 and rounded; below -0.005 it shows 0 |
| MatchScore.WholeValuesExact | static/portal.js:1067-1078 | k/100 shows k, and a whole percent above 1 shows itself |
| MatchScore.Examples | static/portal.js:1067-1078 | 1 shows 100 but 1.2 shows 1; 0.85 and 85 show 85; 150 shows 100; -5 shows 0 |
| CandidateLedger.CountStatus | static/portal.js:505-508 | a status count is at most the number of stored applications |
| CandidateLedger.CountStatusAppend | static/portal.js:505-508 | the counts add up over joined lists |
| CandidateLedger.CountAfterStoring | static/portal.js:503-508 | storing one more application adds exactly that entry's counts |
| CandidateLedger.StatusCountsBound | static/portal.js:503-508 | the four status cards never add up to more than the total |
| CandidateLedger.UncountedStatuses | static/portal.js:503-508 | entries with another or no status count only in the total |
| Strings.UnitSeparatorBefore | server.py:386 | Python's `strip` removes a leading U+001F, which JavaScript's `trim` keeps |
| Strings.ByteOrderMarkBefore | static/portal.js:210-211 | JavaScript's `trim` removes a leading U+FEFF, which Python's `strip` keeps |
| Strings.Utf16Length | static/portal.js:250 | JavaScript's `length` counts UTF-16 code units: at least one and at most two per character |
| Strings.Utf16LengthNarrow | static/portal.js:250 | the code-unit length equals the character count exactly when no character lies outside the Basic Multilingual Plane |
| Strings.Utf16LengthAppend | static/portal.js:250 | the code-unit length adds over concatenation |

## Left out

- DOM rendering is left out: toasts, show/hide timers, `aria-*` attributes, card HTML, theme, sidebar and chatbot. They carry no logic beyond what is modelled. A toast is returned as a value.
- The network is left out. Every fetch is a reply given as input, and each handler is one atomic step. Interleavings of in-flight handlers are not modelled, and neither is a second click while a request is pending.
- A missing DOM element in a success branch is not modelled. Such an element throws inside the handler's `try`, and the handler then reports a network error after a partial state change. The model assumes every element exists.
- Duplicate listeners are not modelled. Every `setupOtpInputs` call adds another pair of listeners; their effect is idempotent, so `listening` is one flag.
- The initial tab comes from the markup, which is not part of this model. It is taken to be the login tab.
- JSON parsing is not modelled. A reply that does not parse falls into the network-error branch (`NetErr`, `FetchFailed`). A stored ledger that does not parse makes the card rendering throw; that case is not modelled.
- `Strings` lower-cases ASCII letters only: the Unicode case mapping of `toLowerCase`/`lower` is not modelled. White space is modelled per language: JavaScript `trim` (the client) also removes U+FEFF, and Python `strip` (the server) also removes U+001C to U+001F and U+0085.
- MatchScore.MatchPercent uses exact reals. JavaScript rounds `raw * 100` in binary floating point, so a value such as 0.285 shows 28 in the browser but 29 here.
- The skills of a job are taken as a string in JobFilters. An array would be joined with commas by the template literal.
- The server's sessions, cookies, uploads, e-mail sending, password hashing, code generation and expiry, and the resume matcher are not modelled. The ranking endpoint and `ensure_csrf_cookie` are not modelled either.
- Code expiry and cleanup in the code table are not modelled. Code verification is a parameter, so LoginManager.AuthStore.SignupVerify does not tie it to the rows SignupStart adds.
- The verify form posts no `name`, so `signup_verify` stores the name "" for every sign-up completed from the page. The model passes the name through as given and does not connect the page's form to the server handler.
- The applicants list reads `similarity_score`. Whether the database supplies that key is not part of this model.
- The stats reply nests camelCase keys, which the page reads under snake_case names. The email modal posts `type` where the endpoint expects `email_type`. Neither boundary mismatch is modelled.
- The first `loadRecruiterJobs`, `openEditJobModal` and the local `deleteJob` of static/portal.js are not modelled. They are replaced by later declarations.
