# Millennium BIM banking front end — a Dafny model of its rules

The application is a React front end, written as TSX components, for a Mozambican bank. Under its markup sit
small, sequential rules, and this project models them:

- the checks on what the customer types: the one-time password, the phone and email of
  registration, and the required fields of the account application;
- the error maps that the application validators build one assignment after another, where
  a later assignment can overwrite an earlier one;
- the screen state machines: the home page, the sign-in / one-time-password / application
  flow, the four-step application wizard and the three-step queue flow;
- the queue ticket's countdown and its status badge;
- the chat overlay and its message list;
- the progress bar.

Every component that keeps React state is a `class`. Its `useState` variables are fields,
and its handlers are methods with `modifies` clauses that state the whole new state. Pure
helpers are functions: `maskIdentifier`, the regular expressions, the status mappings and
the progress bar. Each validator is a method. Like the source, it fills a fresh map with
guarded assignments, and it is proved equal to a declarative specification,
`Forms.SectionErrors`: every checked field whose check fails, with that check's message.
Lemmas then state what that specification means.

JavaScript semantics are written out in module `Js`:

- truthiness, where `""`, `false`, `null` and `undefined` count as missing;
- `String()` conversion;
- the `\s` class and `trim()`;
- `split` on one character;
- the decimal rendering of a number;
- `slice(-k)`.

Module `Patterns` holds the regular expressions as predicates over characters. A field
that was never set reads as `Undefined`.

Translated texts are abstract message tags (`Forms.Msg`). `Blank` stands for the `""` a
handler writes to clear an error. The clock, `Math.random` and the arrival of a
`setTimeout`/`setInterval` callback are parameters or explicit events.

Some proved behaviours contradict the source's own comments or labels:

- `OtpVerification.PhoneExample`: `"841234567"` is masked as `"84****67"`, not `"84****567"`.
- `PersonalDetailsStep.TelephoneNeverRequired`: an empty telephone is never reported as
  "required". The nine-digit check on the next line overwrites that message with "invalid".
- `MultiStepAccountApplication.NationalityNeverStored`: the wizard's nationality input is
  disabled and shows "Mozambican", but no edit ever stores a nationality. From the wizard's
  empty data, the identification step therefore always reports it as missing, and the
  wizard never gets past that step.
- `AccountApplicationForm.NeverSubmitted`: the one-page form's gender and marital-status
  radio buttons carry ids such as `gender-m` and `marital-single`. `handleChange` stores a
  value under the element id, so `gender` and `maritalStatus` stay empty. Whatever the
  customer does, `validateForm` therefore fails.
- `OpenAccountFlow.RepeatedSubmission`: nothing stops the customer from submitting the
  sign-in card again during the 500 ms delay before `onAuthSuccess`. Each timer advances the
  flow one step from wherever it is, so two submissions reach the services page or the
  application form without a verified code, and a third reaches the "something went
  wrong" screen.

## Model

| member | source | states |
|---|---|---|
| Js.Trim | components/chat-dialog.tsx:38 | `trim()` gives `""` exactly when the text is all ECMAScript white space |
| Js.Split | components/auth/otp-verification.tsx:37 | `split` on one character gives at least one piece, no piece contains the separator, and joining the pieces with it gives back the text |
| Js.SplitFirstTwo | components/auth/otp-verification.tsx:37 | when the first separator is at i and the next at j (or there is none), the first two pieces are `s[..i]` and `s[i+1..j]` |
| Js.NatToString | components/queue/join-queue-flow.tsx:71 | a non-negative number is written as decimal digits that denote it, at least one of them, with a leading "0" only for 0 |
| Js.NatToStringLength | components/queue/join-queue-flow.tsx:71 | a number of at least 10^k is written with more than k digits |
| Js.SliceLast | components/queue/join-queue-flow.tsx:71 | `slice(-k)` is the last k characters, or the whole text when it is shorter |
| Patterns.MozambicanPhoneIsNineDigits | components/auth/sign-in-register.tsx:37 | every phone that registration accepts also passes the application forms' nine-digit check |
| Patterns.TelephoneExamples | components/account-opening/account-application-form.tsx:94 | the nine-digit and Mozambican patterns on sample numbers: `841234567` passes both, `811234567` only the first, short or punctuated numbers neither |
| Patterns.OtpExamples | components/auth/otp-verification.tsx:58 | exactly four decimal digits pass the code check |
| Patterns.EmailPatternUnanchored | components/auth/sign-in-register.tsx:41 | the email pattern is unanchored: text around a matching address never makes it fail |
| Patterns.EmailExamples | components/auth/sign-in-register.tsx:41 | `a@b.c` matches; `a@b`, `@b.c` and `a@.c` do not; an address inside a sentence matches |
| Forms.MissingTelephoneIsBad | components/account-opening/account-application-form.tsx:93-94 | a missing telephone (`String(undefined)` and the like included) fails the nine-digit test too |
| Forms.Apply | components/account-opening/account-application-form.tsx:59-71 | an edit stores its value (a checkbox's `checked`, otherwise the value) under its own id and leaves every other field as it was |
| Forms.ReplayKeeps | components/account-opening/account-application-form.tsx:59-71 | a run of edits none of which names field k leaves k as it was |
| PersonalDetailsStep.ValidateStep | components/account-opening/steps/personal-details-step.tsx:43-58 | the fresh error map is exactly the step's failing checks with their messages; the step passes iff the map is empty |
| PersonalDetailsStep.Fold | components/account-opening/steps/personal-details-step.tsx:44-55 | the ten guarded assignments, in order, from the empty map, yield the declarative error map |
| PersonalDetailsStep.ChecksAgree | components/account-opening/steps/personal-details-step.tsx:45-55 | the checks read nothing but branch, full name, telephone, email, address, town, district, province and gender |
| PersonalDetailsStep.ReportsOn | components/account-opening/steps/personal-details-step.tsx:44-55 | the step reports exactly those of its nine fields that are at fault, each with its final message |
| PersonalDetailsStep.CheckedFields | components/account-opening/steps/personal-details-step.tsx:44-55 | the step checks branch, full name, telephone, email, address, town, district, province and gender, and no other field |
| PersonalDetailsStep.PassesIff | components/account-opening/steps/personal-details-step.tsx:43-58 | the step passes iff every required field is present, the telephone is nine digits and the email, if any, matches |
| PersonalDetailsStep.TelephoneNeverRequired | components/account-opening/steps/personal-details-step.tsx:47-48 | "phone number required" never survives; the telephone is reported iff it is not nine digits, and a missing one as invalid |
| PersonalDetailsStep.ReportedFields | components/account-opening/steps/personal-details-step.tsx:45-55 | an empty email is never reported, only the step's nine fields can be, and title, short name and country never are |
| IdentificationDetailsStep.ValidateStep | components/account-opening/steps/identification-details-step.tsx:43-57 | the fresh error map is exactly the step's failing checks; the step passes iff it is empty |
| IdentificationDetailsStep.Fold | components/account-opening/steps/identification-details-step.tsx:44-54 | the ten guarded assignments from the empty map yield the declarative error map |
| IdentificationDetailsStep.ChecksAgree | components/account-opening/steps/identification-details-step.tsx:45-54 | the checks read only the ten identification fields |
| IdentificationDetailsStep.ReportsOn | components/account-opening/steps/identification-details-step.tsx:44-54 | the step reports exactly those of its ten fields that are at fault |
| IdentificationDetailsStep.CheckedFields | components/account-opening/steps/identification-details-step.tsx:44-54 | the step checks exactly its ten identification fields |
| IdentificationDetailsStep.CheckedIsRequired | components/account-opening/steps/identification-details-step.tsx:45-54 | the step checks exactly its ten fields, each only for presence, each with its own "required" message |
| IdentificationDetailsStep.ReportsMissing | components/account-opening/steps/identification-details-step.tsx:45-54 | the reported fields are exactly the missing ones, each with its "required" message |
| IdentificationDetailsStep.PassesIff | components/account-opening/steps/identification-details-step.tsx:56-57 | the step passes iff none of the ten fields is missing |
| IdentificationDetailsStep.MaritalStatusOptionAccepted | components/account-opening/steps/identification-details-step.tsx:67-73 | choosing any of the five marital-status options satisfies that check |
| IdentificationDetailsStep.NationalityShownButRequired | components/account-opening/steps/identification-details-step.tsx:175-179 | with no nationality stored, the disabled field shows "Mozambican" while the step reports "nationality required" and fails |
| DocumentUploadsStep.ValidateStep | components/account-opening/steps/document-uploads-step.tsx:44-53 | the fresh error map is exactly the missing required documents; the step passes iff it is empty |
| DocumentUploadsStep.Fold | components/account-opening/steps/document-uploads-step.tsx:46-49 | the three guarded assignments from the empty map yield the declarative error map |
| DocumentUploadsStep.ReportsOn | components/account-opening/steps/document-uploads-step.tsx:46-49 | the step reports exactly those of its three required documents that are missing |
| DocumentUploadsStep.CheckedFields | components/account-opening/steps/document-uploads-step.tsx:46-49 | the step checks the NUIT document, the identity card and the proof of residence, and no other field |
| DocumentUploadsStep.PassesIff | components/account-opening/steps/document-uploads-step.tsx:46-49 | the step passes iff the NUIT, ID-card and residential-proof documents are all present; the other supporting document is never reported |
| AdditionalInfoStep.ValidateStep | components/account-opening/steps/additional-info-step.tsx:46-52 | the fresh error map is exactly the failing conditions check; the step passes iff it is empty |
| AdditionalInfoStep.Fold | components/account-opening/steps/additional-info-step.tsx:48 | the one guarded assignment from the empty map yields the declarative error map |
| AdditionalInfoStep.ReportsOn | components/account-opening/steps/additional-info-step.tsx:48 | the step reports the conditions checkbox when it is not ticked, and nothing else |
| AdditionalInfoStep.CheckedFields | components/account-opening/steps/additional-info-step.tsx:48 | the step checks the conditions checkbox and no other field |
| AdditionalInfoStep.PassesIff | components/account-opening/steps/additional-info-step.tsx:46-52 | the step passes iff the conditions are accepted; the second account holder is never reported; an unticked box gives exactly one error |
| AccountApplicationForm.InitialFormData | components/account-opening/account-application-form.tsx:25-50 | the initial data holds none of the document fields (they live in state variables of their own) |
| AccountApplicationForm.Validate | components/account-opening/account-application-form.tsx:85-124 | the fresh error map of the twenty-four assignments is exactly the failing checks over the data, with the three required documents read from their state variables; valid iff empty |
| AccountApplicationForm.Fold | components/account-opening/account-application-form.tsx:86-121 | the assignments of validateForm from the empty map yield the declarative error map |
| AccountApplicationForm.StepsInOrder | components/account-opening/account-application-form.tsx:89-121 | running the four steps' checks one after another is the one-page validator |
| AccountApplicationForm.SameChecks | components/account-opening/account-application-form.tsx:116-118 | checking the document state variables is checking the data with those documents put in |
| AccountApplicationForm.FormIsUnionOfSteps | components/account-opening/account-application-form.tsx:89-121 | the one-page error map is the union of the four wizard steps' error maps |
| AccountApplicationForm.CheckedBySomeStep | components/account-opening/account-application-form.tsx:89-121 | a field is checked by the one-page form iff some wizard step checks it |
| AccountApplicationForm.ReportsOn | components/account-opening/account-application-form.tsx:88-121 | the form reports exactly those fields at fault among the ones the four steps check between them |
| AccountApplicationForm.FullFormData | components/account-opening/account-application-form.tsx:130-136 | the submitted data keeps every non-document field of the form data, and each of the four document entries is the chosen file's name, or undefined when no file was chosen |
| AccountApplicationForm.RadiosNeverSetGenderOrMaritalStatus | components/account-opening/account-application-form.tsx:221-234 | no edit the page can produce writes gender or marital status, so from the initial data both stay empty |
| AccountApplicationForm.NeverSubmitted | components/account-opening/account-application-form.tsx:127-139 | after any edits the page allows, whatever the documents, validation reports gender and marital status and fails |
| AccountApplicationForm.RadiosMissingReported | components/account-opening/account-application-form.tsx:101-113 | missing gender and marital status are both reported, so the form cannot pass |
| AccountApplicationForm.NationalityPrefilled | components/account-opening/account-application-form.tsx:25-50 | while the nationality keeps its initial "Mozambican", it is never reported |
| AccountApplicationForm.ApplicationForm.constructor | components/account-opening/account-application-form.tsx:25-57 | the initial data, no errors, no documents chosen |
| AccountApplicationForm.ApplicationForm.HandleEdit | components/account-opening/account-application-form.tsx:59-71 | an edit changes only its field and resets only that field's error to "" |
| AccountApplicationForm.ApplicationForm.HandleFileChange | components/account-opening/account-application-form.tsx:73-83 | the chosen file (or null) goes into that document's variable; the error is cleared only when a file was chosen |
| AccountApplicationForm.ApplicationForm.ValidateForm | components/account-opening/account-application-form.tsx:85-125 | the errors are replaced by the declarative error map; the result is true iff it is empty |
| AccountApplicationForm.ApplicationForm.HandleSubmit | components/account-opening/account-application-form.tsx:127-139 | onSubmit receives the data plus the document names only when validation passes |
| MultiStepAccountApplication.NationalityNeverStored | components/account-opening/steps/identification-details-step.tsx:175-180 | from the wizard's empty data, no run of rendered edits stores a nationality; the field shows "Mozambican" and the step reports it as required |
| MultiStepAccountApplication.StuckAtIdentification | components/account-opening/steps/identification-details-step.tsx:53-65 | while no nationality is stored, submitting the identification step fails |
| MultiStepAccountApplication.Wizard.constructor | components/account-opening/multi-step-account-application.tsx:18-20 | step 0, empty data, no errors |
| MultiStepAccountApplication.Wizard.HandleNext | components/account-opening/multi-step-account-application.tsx:29-32 | the step goes up by exactly one and all errors are cleared |
| MultiStepAccountApplication.Wizard.HandleBack | components/account-opening/multi-step-account-application.tsx:34-37 | the step goes down by exactly one and all errors are cleared |
| MultiStepAccountApplication.Wizard.PressBack | components/account-opening/multi-step-account-application.tsx:43-88 | step 0's back button leaves for the enclosing onBack and keeps the wizard as it is; the others go one step back; the step stays within 0..3 |
| MultiStepAccountApplication.Wizard.HandleEdit | components/account-opening/steps/document-uploads-step.tsx:29-42 | an edit stores its value and clears its field's error, except that an emptied file input stores null and keeps the error |
| MultiStepAccountApplication.Wizard.SubmitStep | components/account-opening/multi-step-account-application.tsx:43-91 | the step on screen validates; on success steps 0-2 advance and step 3 hands the accumulated data unchanged to onSubmit; on failure nothing moves; the step stays within 0..3 |
| OtpVerification.SplitAtLeastTwo | components/auth/otp-verification.tsx:37 | an identifier containing "@" splits into at least two pieces, so the destructuring always finds a domain part |
| OtpVerification.MaskLocal | components/auth/otp-verification.tsx:39-40 | a local part longer than 2 becomes first char, "****", last char; a shorter one its first char (if any) and "**" |
| OtpVerification.MaskIdentifier | components/auth/otp-verification.tsx:32-52 | without "@": at least 5 characters become the first two, "****" and the last two (8 characters); fewer are returned unchanged, the empty identifier included |
| OtpVerification.MaskEmail | components/auth/otp-verification.tsx:36-41 | with "@": the masked local part, "@", and the text up to a second "@", which is dropped with everything after it |
| OtpVerification.RegisteredHintMasked | components/auth/otp-verification.tsx:32-51 | the hint an accepted registration hands on (sign-in-register.tsx:65-72, 95) is masked as what it is: a phone keeps two digits at each end, and an email, which always holds an "@", has its local part masked and the piece after it kept |
| OtpVerification.PhoneExample | components/auth/otp-verification.tsx:44-49 | `841234567` is masked as `84****67`, not as the comment's `84****567` |
| OtpVerification.OtpScreen.constructor | components/auth/otp-verification.tsx:21-23 | empty code, no error, empty mask |
| OtpVerification.OtpScreen.HintChanged | components/auth/otp-verification.tsx:26-30 | the mask is recomputed only for a non-null, non-empty hint |
| OtpVerification.OtpScreen.EditOtp | components/auth/otp-verification.tsx:100-103 | editing the code stores it and clears the error |
| OtpVerification.OtpScreen.VerifyOtp | components/auth/otp-verification.tsx:54-63 | onVerifySuccess is called iff the code is exactly four digits; otherwise the error is set |
| SignInRegister.PhoneEmailError | components/auth/sign-in-register.tsx:65-72 | the contact passes iff a phone or an email is given, a given phone is Mozambican and a given email matches |
| SignInRegister.AcceptedContact | components/auth/sign-in-register.tsx:95 | an accepted contact's phone, when given, is Mozambican; otherwise there is a matching email |
| SignInRegister.Card.constructor | components/auth/sign-in-register.tsx:20-33 | sign-in mode, all inputs empty, no error, passwords hidden |
| SignInRegister.Card.Edit | components/auth/sign-in-register.tsx:124-240 | an input's onChange sets only that input; username, phone and email also clear the error, the name and password inputs do not |
| SignInRegister.Card.ToggleVisibility | components/auth/sign-in-register.tsx:171-180 | a show/hide button flips only its own password's visibility |
| SignInRegister.Card.SetRegistering | components/auth/sign-in-register.tsx:209-212 | switching mode either way clears the error and keeps the inputs |
| SignInRegister.Card.HandleLogin | components/auth/sign-in-register.tsx:44-59 | login fails with "username and password required" iff either is empty; otherwise the username is handed on |
| SignInRegister.Card.HandleRegister | components/auth/sign-in-register.tsx:61-97 | rejected iff name empty, contact error, passwords differ or the password is shorter than 6; message priority mismatch, length, contact, "fill all"; an accepted registration hands on the phone if given, else the email, and it is valid |
| OpenAccountFlow.RenderStep | components/open-account-flow.tsx:64-87 | sign-in at 0, the code at 1 with the stored hint, services (login) or the form (account opening) at 2, the error screen at any other step |
| OpenAccountFlow.HeaderTitle | components/open-account-flow.tsx:89-98 | a title for steps 0-2, "" for any other, matching the screen at step 2 |
| OpenAccountFlow.Flow.constructor | components/open-account-flow.tsx:29-32 | step 0, no identifier, empty data, no delayed callback pending |
| OpenAccountFlow.Flow.HandleNext | components/open-account-flow.tsx:34 | the step goes up by one |
| OpenAccountFlow.Flow.HandleBack | components/open-account-flow.tsx:35 | the step goes down by one, with no bound of its own |
| OpenAccountFlow.Flow.HandleAuthSuccess | components/open-account-flow.tsx:37-40 | the identifier is stored and the step goes up by one, from whatever step the flow is at |
| OpenAccountFlow.Flow.HandleOtpVerifySuccess | components/open-account-flow.tsx:42-49 | both flow types go to step 2 |
| OpenAccountFlow.Flow.HandleFormSubmit | components/open-account-flow.tsx:56-62 | the submitted entries are merged over the stored ones, submitted values winning, and the flow closes |
| OpenAccountFlow.Flow.HandleClose | components/open-account-flow.tsx:109 | the close button calls onClose |
| OpenAccountFlow.Flow.Handle | components/open-account-flow.tsx:34-113 | each offered callback has its exact effect, a delayed `onAuthSuccess` (sign-in-register.tsx:54-58, 92-96) firing at any step; while at most one is pending and only at step 0, the step stays within 0..2 and step 2 is entered only on a verified code; the back button exists only at step 1 and on the form |
| OpenAccountFlow.OneSubmission | components/auth/sign-in-register.tsx:54-58 | one submission of the card, once its timer fires, shows the code screen hinted with the identifier |
| OpenAccountFlow.RepeatedSubmission | components/open-account-flow.tsx:34-85 | three submissions of the card (sign-in-register.tsx:54-58) within the delay: after two timers the flow shows the services page or the application form with no code verified, after the third the error screen |
| BankHomePage.Overlay | components/bank-home-page.tsx:153 | the flow overlay is rendered iff a flow is active, with that flow's type |
| BankHomePage.Page.constructor | components/bank-home-page.tsx:16 | no flow is active at first |
| BankHomePage.Page.Click | components/bank-home-page.tsx:19-25 | Open Account activates account opening, Log In activates login, Join Queue and Digital Documents change nothing |
| BankHomePage.Page.HandleCloseFlow | components/bank-home-page.tsx:27-29 | closing deactivates the flow and removes the overlay |
| JoinQueueFlow.MakeTicket | components/queue/join-queue-flow.tsx:67-81 | a ticket for the chosen branch and service, active, position in 1..15, wait a multiple of 5 in 5..75 |
| JoinQueueFlow.EveryDrawIssued | components/queue/join-queue-flow.tsx:74-75 | every position in 1..15 and every wait in 5, 10, ..., 75 comes from some pair of draws |
| JoinQueueFlow.TicketNumber | components/queue/join-queue-flow.tsx:71 | once the clock reads at least 100000, the ticket number is "MB" and the last six digits of the clock: eight characters |
| JoinQueueFlow.HeaderTitle | components/queue/join-queue-flow.tsx:102-113 | step 0 is titled select branch, step 1 select service, step 2 your queue ticket, each exactly there, and the flow's own name is the title exactly on any other step |
| JoinQueueFlow.Flow.constructor | components/queue/join-queue-flow.tsx:48-51 | step 0, nothing selected, no ticket |
| JoinQueueFlow.Flow.RenderStep | components/queue/join-queue-flow.tsx:89-100 | nothing is rendered exactly when the step is not 0, 1 or 2; the service list gets the selected branch and the ticket screen the stored ticket |
| JoinQueueFlow.Flow.HandleNext | components/queue/join-queue-flow.tsx:59 | the step goes up by one |
| JoinQueueFlow.Flow.HandleBack | components/queue/join-queue-flow.tsx:60 | the step goes down by one |
| JoinQueueFlow.Flow.HandleBranchSelect | components/queue/join-queue-flow.tsx:62-65 | the branch is stored and the step goes up by one |
| JoinQueueFlow.Flow.HandleServiceSelect | components/queue/join-queue-flow.tsx:67-81 | the service is stored, a ticket is issued for the stored branch and the step goes up by one |
| JoinQueueFlow.Flow.HandleCancelTicket | components/queue/join-queue-flow.tsx:83-87 | the ticket's status becomes "cancelled" and nothing else of it changes; without a ticket nothing happens |
| JoinQueueFlow.Flow.HandleClose | components/queue/join-queue-flow.tsx:124 | the close button calls onClose |
| JoinQueueFlow.Flow.Handle | components/queue/join-queue-flow.tsx:115-136 | every action on offer keeps the step within 0..2, with a branch from step 1 on and a ticket at step 2; the progress bar shows exactly before the ticket step; choosing a service reaches step 2 with an issued ticket; cancelling leaves the ticket cancelled |
| QueueTicket.ColorMatchesText | components/queue/steps/queue-ticket.tsx:55-79 | a status is gray exactly when its text is the raw status; green goes with "active" and red with "cancelled" |
| QueueTicket.ButtonsAcrossCancel | components/queue/steps/queue-ticket.tsx:190-201 | an issued ticket offers cancel and "keep ticket active"; once cancelled, no cancel button, a plain close and a red badge |
| QueueTicket.Screen.constructor | components/queue/steps/queue-ticket.tsx:29-31 | position and wait start from the ticket's; an issued ticket gives a valid screen |
| QueueTicket.Screen.Tick | components/queue/steps/queue-ticket.tsx:34-45 | the queue moves only from a position above 1, then position down one and wait to max(wait - 5, 5); the wait never changes alone; position at least 1 and wait at least 5 are kept |
| ProgressBar.FromLayout | components/ui/progress-bar.tsx:12-36 | from index i on, the rendering has 2(n - i) - 1 parts, steps at even and connectors at odd offsets |
| ProgressBar.Layout | components/ui/progress-bar.tsx:12-36 | step i shows i + 1 and is highlighted (circle and label) iff i <= currentStep; the connector after step i is filled iff i < currentStep |
| ProgressBar.ConnectorCount | components/ui/progress-bar.tsx:32 | n >= 1 steps give exactly n - 1 connectors |
| ChatDialog.UserCountAppend | components/chat-dialog.tsx:39 | appending a message adds one user message exactly when it is a user message |
| ChatDialog.Dialog.constructor | components/chat-dialog.tsx:18-19 | no messages, empty input |
| ChatDialog.Dialog.SeedInitialMessage | components/chat-dialog.tsx:22-29 | a non-empty initial message becomes the single bot message of an empty list, and only then is it reported consumed |
| ChatDialog.Dialog.EditMessage | components/chat-dialog.tsx:96 | the input takes the typed text |
| ChatDialog.Dialog.HandleSendMessage | components/chat-dialog.tsx:37-45 | blank input changes nothing; otherwise exactly one user message with the untrimmed text is appended, the input is cleared and one reply is scheduled |
| ChatDialog.Dialog.KeyPress | components/chat-dialog.tsx:97-101 | Enter sends; other keys change nothing |
| ChatDialog.Dialog.ReplyArrives | components/chat-dialog.tsx:41-43 | a scheduled reply appends one "not live" bot message |
| ChatDialog.Dialog.HandleInfoClick | components/chat-dialog.tsx:47-49 | one bot message is appended and no user message |
| GlobalChatProvider.Provider.constructor | components/global-chat-provider.tsx:11-12 | closed, no pending message |
| GlobalChatProvider.Provider.Render | components/global-chat-provider.tsx:33-64 | the dialog, handed the pending message, iff open; the floating open button iff closed |
| GlobalChatProvider.Provider.OpenChat | components/global-chat-provider.tsx:14-17 | open, with the given message pending |
| GlobalChatProvider.Provider.CloseChat | components/global-chat-provider.tsx:19-22 | closed, and the pending message dropped |
| GlobalChatProvider.Provider.HandleInitialMessageConsumed | components/global-chat-provider.tsx:24-26 | the pending message is dropped and the open flag kept |
| GlobalChatProvider.Provider.PressOpenButton | components/global-chat-provider.tsx:39 | the floating button, shown only while closed, opens the chat with no message |

## Left out

- Markup, styling, icons, images and the design tokens: they are presentation only.
- Translations: messages are abstract tags, and the language setting is not modelled.
  Label text is never the subject of a property.
- JoinQueueFlow.Flow, JoinQueueFlow.HeaderTitle and QueueTicket.Screen model the screens as
  their code evidently intends, not as they render. `lib/translations.ts` has no entry for
  several keys these screens read while rendering:
  - `selectService` and `queueTicket`, in the `steps` array that join-queue-flow.tsx:53-57
    builds on every render;
  - `yourQueueTicket`, the step-2 title at join-queue-flow.tsx:109;
  - most of the labels of queue-ticket.tsx, such as `peopleAheadOfYou` (line 106),
    `estimatedWait` (112), `cancelled` (73), `cancelTicket` (196) and `keepTicketActive` (201).

  Each lookup reads `[language]` of `undefined` and throws a `TypeError`. As written,
  neither the queue flow nor the ticket screen ever appears. With the tags abstract, the
  model does not capture that throw.
- Timers:
  - The delayed `onAuthSuccess` of login and registration is the value their methods
    return in `SignInRegister.Card`. In `OpenAccountFlow.Flow` it is two explicit events:
    the card's accepted submission, which queues the identifier, and the timer firing,
    which hands the oldest one to `handleAuthSuccess` at whatever step the flow is at.
  - The chat's delayed reply is the explicit event `ChatDialog.Dialog.ReplyArrives`.
  - The ticket's minute timer is the explicit event `QueueTicket.Screen.Tick`.
  - The eight-second tooltip timers of the input wrappers are not modelled.
- `Date.now()`, `new Date()` and `Math.random()` are parameters: a clock reading in
  milliseconds, the two draws `Math.floor(Math.random() * 15)`, and the truth of
  `Math.random() > 0.7`.
- JoinQueueFlow.MakeTicket: one clock reading `now` stands for both `Date.now()` in the
  ticket number (join-queue-flow.tsx:71) and `new Date()` in `issuedAt` (line 76). The
  source reads the clock twice, so the two can differ by the time between the reads.
- `toLocaleTimeString` formatting, the current-time and queue-information display, the
  mock recent-service list, and `getStatusIcon`: locale formatting and presentation.
- `alert` and `console.log`.
- The browser's native constraint validation is not modelled: `required`, `maxLength`,
  `pattern` and `type="email"` on the inputs. The model assumes each handler runs on
  whatever the inputs hold.
- `handleSelectAccount` and `selectedAccount` in the open-account flow: no rendered
  component is ever handed this handler.
- Buttons without a handler: resend code, try another method, forgot username, and the
  home page's menu. The home page's Join Queue and Digital Documents buttons are in
  `BankHomePage.Page.Click` as no-ops.
- The code screen's contact-support button calls the chat context's `openChat`. That
  operation is `GlobalChatProvider.Provider.OpenChat`; the context plumbing is not modelled.
- Mounting and unmounting: components are separate objects.
  - The model does not show that closing the chat discards the dialog's messages.
  - It does not show that closing a flow discards the flow's state.
  - It does not show that a step component's props come from the wizard.
- The chat dialog's scroll-into-view effect, and the `key={step}` of the progress bar.
- Branches and services carry only an id, a name and one number. Their other fields are
  only displayed.
- `OtpVerification.MaskIdentifier`: lengths and `substring`/`slice` positions are counted
  in Unicode characters, not UTF-16 code units. The model therefore differs from the source
  for identifiers with characters outside the Basic Multilingual Plane.
- `SignInRegister.Card.HandleRegister`: the six-character minimum counts Unicode
  characters, not UTF-16 code units, for the same reason.
- `Forms.Apply`: a select or file edit names its field directly. Element ids are the field
  names, so the model cannot express an id that names no field.
- The language context, the chat context, the language switcher, the app layout, the
  `ui/professional-*` wrappers and the mock-data pages: they hold no rules beyond literal
  lookups.
