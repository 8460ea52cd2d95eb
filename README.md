# google-form-automation, modelled in Dafny

The system fills in a Google Form with a Selenium-driven Chrome, submits it,
and emails the confirmation screenshot with a fixed submission text. Before
any of that, it checks its environment-backed configuration. This project
models the decision logic of those three parts and proves what they promise.

- `Config` (config.py): the settings read from the environment, taken as a
  map from variable name to value.
  - The `MAIL_USE_TLS` / `MAIL_USE_SSL` flags are on only when the text is
    exactly `True`, each with its own default.
  - `int()` of `MAIL_PORT` can fail.
  - `validate_config` filters the four required variables in order and raises
    a `ValueError` naming all the missing ones.
- `FormFiller` (form_filler.py): the form is an oracle `Page`, saying whether
  the first question appears in time, which elements the question block of
  each label holds, and whether a Submit control becomes clickable. The
  `Browser` class records what is done to the page: visits, typed entries,
  saved screenshots, the submit click and the quit.
  - `fill_field` skips an empty value. Otherwise it picks the first input that
    is neither a radio button nor a checkbox, else the first textarea, and
    types into it.
  - `fill_form` tries the fields in their fixed order, stops at the first
    failure, and reorders a `d/m/y` date of birth to `m/d/y`. A date without
    exactly two `/` is left out, and filling goes on.
  - The run is proved equal to the fail-fast run `RunPlan` of the plan
    `FormPlan`.
  - `automate_google_form` sets up, fills, submits and always closes. It
    returns a screenshot path only when the fill succeeded.
- `EmailSender` (email_sender.py):
  - The subject is `Python (Selenium) Assignment - ` followed by the name.
  - The body lists the work samples numbered from 1 in input order, or gives
    one fallback GitHub line when there are none.
  - The sender, recipient and copy are fixed by the settings.
  - The screenshot and the resume are each attached exactly when their path is
    given and exists; the file system is the set of existing paths.
  - The message goes out in one send, which the transport oracle `Mailer`
    accepts or refuses.
  - `send_assignment_submission` replaces a falsy repository or name by the
    configured one.
- `Text` holds the Python string operations these rely on: `str.split`,
  `str.join`, decimal formatting and `int()`, `os.path.basename` and
  `os.path.join`.

The structure follows the code. `GoogleFormFiller`, `Browser`, `Message`,
`Mailer` and `EmailSender` are classes whose methods update fields. The
composition rules are functions. The loops of `validate_config` and of the
body's sample list are `for` loops proved against those functions.
`fill_form` has no loop. Its straight-line calls are written in two helper
methods: the five contact fields (lines 113-127), then the date of birth,
gender and verification code (lines 129-145). Each helper is proved against a
left fold `Steps` of the calls over its part of the plan, and
`StepsIsRunPlan` ties the fold to `RunPlan`.

Some behaviour of the code worth knowing:
- The gender is typed into the block's text input like every other field
  (src/form_filler.py:139-140).
- A field that cannot be located or filled aborts the whole fill
  (src/form_filler.py:114-144).
- A field is found only through the question block that holds its label
  (src/form_filler.py:65).
- A Submit control that never becomes clickable leads to the
  "5_submit_error" screenshot, whose path is returned
  (src/form_filler.py:188-191). That path reads as success to a caller that
  only tests the result for truthiness (`SubmitErrorStillYieldsPath`).

## Model

| member | source | states |
|---|---|---|
| Text.Join | config/config.py:63 | `sep.join(parts)` starts with the first part, followed by the separator when there are more parts |
| Text.PathJoin | src/form_filler.py:163 | `os.path.join(dir, name)` starts with `dir`, ends with `name`, and puts exactly one `/` between them unless `dir` is empty or already ends in `/` |
| Text.Split | src/form_filler.py:132 | `str.split` yields at least one piece, none holding the separator, and more than one iff the string holds it |
| Text.JoinSplit | src/form_filler.py:132 | joining the pieces of a split with the same separator gives back the string |
| Text.SplitJoin | src/form_filler.py:132-135 | pieces free of the separator, once joined, split back into the same pieces |
| Text.Decimal | src/email_sender.py:107 | the number as `str(i)` writes it: digits only, at least one, no leading zero |
| Text.ParseDecimal | config/config.py:16 | `int()` succeeds exactly on a non-empty string of decimal digits |
| Text.ParseDecimalRoundTrip | config/config.py:16 | reading back a formatted number gives the number |
| Text.DecimalInjective | src/email_sender.py:106-107 | distinct sample numbers are written differently |
| Text.Basename | src/email_sender.py:155 | the base name has no `/`, ends the path, and is preceded by `/` when shorter than the path |
| Text.BasenameOfPathJoin | src/form_filler.py:163 | the base name of `os.path.join(dir, name)` is `name` when `name` has no `/` |
| Config.GetEnv | config/config.py:15-41 | a set variable, even set to "", wins over the default; the default is returned only for an unset variable |
| Config.LookupEnv | config/config.py:17-18 | `os.getenv(name)` without a default: a value iff the variable is set, and then its value |
| Config.IsSet | config/config.py:59 | `os.getenv(var)` is truthy iff the variable is set and not empty, and then every default is ignored |
| Config.MailUseTls | config/config.py:19 | TLS is on iff `MAIL_USE_TLS` is unset or exactly `True` |
| Config.MailUseSsl | config/config.py:20 | SSL is on iff `MAIL_USE_SSL` is set and exactly `True` |
| Config.Load | config/config.py:15-41 | loading fails iff `MAIL_PORT` is set and is not a decimal literal; the flags follow the rules above; the port is the value of `MAIL_PORT` when set, else 587; `MAIL_USERNAME` and `MAIL_PASSWORD` are the variables' values or None; every other attribute is its variable's value when set, else its default (`tech@themedius.ai` for `TO_EMAIL`, `hr@themedius.ai` for `CC_EMAIL`, and so on) |
| Config.MissingAmong | config/config.py:57-60 | a name is reported missing iff it is required and its variable is unset or empty |
| Config.MissingAmongInOrder | config/config.py:50-60 | the missing names keep the order of the required list |
| Config.ValidateConfig | config/config.py:48-65 | raises iff some required variable is unset or empty, with the prefix followed by all missing names joined by ", "; otherwise returns True |
| Config.ValidationIgnoresDefaults | config/config.py:30-59 | an unset name or repository is reported missing although its attribute holds the default |
| Config.MissingMessageExample | config/config.py:63 | with only the mail user name set, the message lists MAIL_PASSWORD, YOUR_NAME, GITHUB_REPO in that order |
| FormFiller.FirstTextInput | src/form_filler.py:79 | the first input that is neither radio nor checkbox, and none before it |
| FormFiller.FirstTextArea | src/form_filler.py:83 | the first textarea, and none before it |
| FormFiller.ChooseField | src/form_filler.py:75-86 | none iff the block has neither kind; otherwise the first text input, or when there is none the first textarea |
| FormFiller.FieldOutcomeOf | src/form_filler.py:58-100 | skipped iff the value is empty; text is entered only into the element `ChooseField` picks in the label's block; a non-empty value succeeds iff the label has a block, the block has a candidate element and that element is interactable |
| FormFiller.Lookup | src/form_filler.py:114-144 | `form_data.get(key, '')`: the form data's value when the key is present, "" otherwise |
| FormFiller.DobForEntry | src/form_filler.py:130-135 | a date is entered only when it holds a `/`; the entered text holds a `/` and has the original's length |
| FormFiller.DobSwapsFirstTwoParts | src/form_filler.py:130-135 | the date is entered iff it splits into exactly three parts; the entered text splits into the same parts with the first two swapped |
| FormFiller.DobReorder | src/form_filler.py:130-135 | `day/month/year` is typed as `month/day/year` |
| FormFiller.DobMalformedNotEntered | src/form_filler.py:131-137 | a date without `/` or with other than three parts is not entered |
| FormFiller.DobReorderInvolution | src/form_filler.py:132-135 | reordering the reordered date gives back the original |
| FormFiller.DobExample | src/form_filler.py:233 | `25/12/1990` is typed as `12/25/1990` |
| FormFiller.FormPlan | src/form_filler.py:113-145 | `fill_form` plans seven calls, or eight when the date of birth can be reordered |
| FormFiller.FormPlanOrder | src/form_filler.py:113-145 | the calls run from "Full Name" to "Type this code", each field at most once |
| FormFiller.FormPlanDob | src/form_filler.py:129-135 | the date of birth is attempted only in its reordered form |
| FormFiller.FormPlanValues | src/form_filler.py:113-145 | every other field is attempted with the form data's value for its key (`Verification Code` for "Type this code"), "" when the key is missing |
| FormFiller.RunPlan | src/form_filler.py:113-145 | the fail-fast run makes at most the planned calls and types at most one entry per call; a failed run made at least one call |
| FormFiller.RunPlanPrefix | src/form_filler.py:113-145 | the calls made are the first calls of the plan, in its order |
| FormFiller.RunPlanFailedLast | src/form_filler.py:114-144 | the last call of a failed run is the one that failed, and every earlier call succeeded |
| FormFiller.MissingKeySkipped | src/form_filler.py:113-145 | a planned field whose key is missing is skipped, which counts as success, and no empty text is typed |
| FormFiller.EnteredTextNonEmpty | src/form_filler.py:58-61 | no empty text is ever typed |
| FormFiller.RunPlanOk | src/form_filler.py:113-145 | the fill succeeds iff every planned call succeeds, and then every planned call was made in order |
| FormFiller.RunPlanFailFast | src/form_filler.py:114-144 | a failed fill stopped at a call that failed, every earlier call succeeded, and no later call was made |
| FormFiller.StepsStopped | src/form_filler.py:114-144 | after a failed call no further call is made |
| FormFiller.StepsAppend | src/form_filler.py:113-145 | making two groups of calls one after the other is making their concatenation |
| FormFiller.StepsIsRunPlan | src/form_filler.py:113-145 | the calls made one at a time, each appending to the logs, come to the fail-fast run of the plan |
| FormFiller.ScreenshotPath | src/form_filler.py:162-163 | the path starts with the screenshot directory and ends with `name_timestamp.png` |
| FormFiller.ScreenshotFileName | src/form_filler.py:162-163 | the screenshot file is named `name_timestamp.png` in any directory |
| FormFiller.Browser.constructor | src/form_filler.py:37 | a new session has visited, typed and saved nothing |
| FormFiller.Browser.Get | src/form_filler.py:105 | the URL is visited |
| FormFiller.Browser.TypeInto | src/form_filler.py:88-93 | typing succeeds iff the element is interactable, and then logs the entry |
| FormFiller.Browser.SaveScreenshot | src/form_filler.py:164 | the call does not raise iff the session's screenshot command works, and then logs the path |
| FormFiller.Browser.ClickSubmit | src/form_filler.py:177-181 | the click happens iff a Submit control becomes clickable |
| FormFiller.Browser.Quit | src/form_filler.py:197 | the session is quit |
| FormFiller.GoogleFormFiller.constructor | src/form_filler.py:16-19 | no driver yet, no calls made |
| FormFiller.GoogleFormFiller.SetupDriver | src/form_filler.py:22-51 | succeeds iff Chrome started, and then holds that session |
| FormFiller.GoogleFormFiller.FillField | src/form_filler.py:53-100 | one call is logged; its success and the typed entry follow the field outcome; without a driver only an empty value succeeds |
| FormFiller.GoogleFormFiller.CaptureScreenshot | src/form_filler.py:160-169 | returns and logs `dir/name_timestamp.png` iff `save_screenshot` does not raise; None without a driver |
| FormFiller.GoogleFormFiller.FillContactFields | src/form_filler.py:113-127 | the five contact calls come to the fold of their plan |
| FormFiller.GoogleFormFiller.FillRemainingFields | src/form_filler.py:129-145 | the date-of-birth, gender and code calls come to the fold of their plan |
| FormFiller.GoogleFormFiller.FillForm | src/form_filler.py:102-158 | succeeds iff the form loads and the fail-fast run succeeds; logs exactly the calls of that run and its typed entries; visits the URL once; saves "2_filled" only on success |
| FormFiller.GoogleFormFiller.SubmitForm | src/form_filler.py:171-191 | clicks Submit iff clickable; returns the "5_confirmation" or "5_submit_error" screenshot path accordingly, or None when `save_screenshot` raises |
| FormFiller.GoogleFormFiller.Close | src/form_filler.py:193-197 | the session, when there is one, is quit |
| FormFiller.AutomationResult | src/form_filler.py:201-212 | `automate_google_form` returns a path iff the fill succeeded and `save_screenshot` does not raise, and then it is the submit screenshot's path, named with the time of that capture |
| FormFiller.AutomationShots | src/form_filler.py:153-209 | the screenshots saved: none when `save_screenshot` raises; after a successful fill two, the last one the returned path; after a failed fill only "4_fill_error", named with the time of that capture |
| FormFiller.AutomateGoogleForm | src/form_filler.py:201-218 | None when Chrome does not start or the fill fails; otherwise the submit screenshot's path; the session is quit on every path; the screenshots saved, each named with the time of its own capture, and the submit click follow the outcome |
| FormFiller.AutomationResultSome | src/form_filler.py:201-212 | a path comes back iff the form loaded, every planned call succeeded and `save_screenshot` did not raise |
| FormFiller.SubmitErrorStillYieldsPath | src/form_filler.py:187-191 | an unclickable Submit still yields a path, that of the "5_submit_error" screenshot |
| EmailSender.OrDefault | src/email_sender.py:185-186 | a falsy argument is replaced by the configured value, a truthy one kept |
| EmailSender.DefaultedSubject | src/email_sender.py:186 | with no name given the subject carries the configured name |
| EmailSender.Subject | src/email_sender.py:34 | the subject is the fixed prefix followed by exactly the name |
| EmailSender.SubjectDeterminesName | src/email_sender.py:34 | the subject identifies the name it was built from |
| EmailSender.Numbered | src/email_sender.py:105-107 | the sample lines are empty iff there are no samples, and take at least seven characters per sample |
| EmailSender.Fallback | src/email_sender.py:108-109 | the fallback line ends with the repository link |
| EmailSender.SamplesSection | src/email_sender.py:105-109 | a non-empty list gives its samples numbered from 1 in input order; an absent or empty one gives the fallback line |
| EmailSender.Body | src/email_sender.py:36-130 | the body starts with the opening sections and ends with the closing ones |
| EmailSender.BodyNamesRepoAndSender | src/email_sender.py:36-129 | the repository link stands right after the heading of section 2, and the name right before the closing trailer |
| EmailSender.ComposeBody | src/email_sender.py:36-130 | the body built line by line is the opening, the samples section and the closing |
| EmailSender.AppendSamples | src/email_sender.py:105-107 | the loop appends exactly the numbered sample lines |
| EmailSender.NumberedInOrder | src/email_sender.py:105-107 | the appended lines are the samples numbered 1, 2, ... in input order |
| EmailSender.SampleLineAt | src/email_sender.py:105-107 | sample `i` sits on the line numbered `i + 1`, after the lines of the samples before it |
| EmailSender.NoSamplesFallback | src/email_sender.py:105-109 | an absent or empty list gives the same body, with exactly the one fallback line |
| EmailSender.Attachments | src/email_sender.py:141-162 | a PNG is attached iff the screenshot path is given and exists, always as `form_confirmation.png`; a PDF iff the resume path is given and exists, under its base name; screenshot first; one attachment per existing given file and no other |
| EmailSender.AttachFiles | src/email_sender.py:141-162 | the attach steps leave the message with exactly the attachments above |
| EmailSender.ComposeMail | src/email_sender.py:133-162 | the message has the configured sender, recipient and copy, the subject and body above, and exactly the attachments above, screenshot first; none iff neither file is given and exists |
| EmailSender.RecipientsFixed | src/email_sender.py:133-139 | the sender, recipients and copy are the configured ones whatever the arguments |
| EmailSender.HeaderFromEnvironment | src/email_sender.py:133-139 | with settings loaded from the environment, the sender is `MAIL_USERNAME`, the recipient `TO_EMAIL` and the copy `CC_EMAIL`, each defaulted when unset |
| EmailSender.Message.constructor | src/email_sender.py:133-139 | the message holds the given header and body and no attachment |
| EmailSender.Message.Attach | src/email_sender.py:144-148 | one attachment is added at the end |
| EmailSender.Mailer.constructor | src/email_sender.py:17 | nothing sent yet |
| EmailSender.Mailer.Send | src/email_sender.py:165 | the message is sent iff the transport accepts it |
| EmailSender.EmailSender.constructor | src/email_sender.py:14-17 | the sender keeps the settings and the transport |
| EmailSender.EmailSender.SendAssignmentEmail | src/email_sender.py:29-179 | returns True iff the send goes through, and then exactly one message, the composed one, was sent |
| EmailSender.SendAssignmentSubmission | src/email_sender.py:182-195 | defaults the repository and the name, then sends as above |

## Left out

- Chrome set-up, the options, the webdriver-manager fallbacks and the creation of the screenshot directory (form_filler.py:20-51) are foreign library calls. Set-up is reduced to whether a session comes back.
- Waits, scrolling, `time.sleep` and the XPath text matching are browser I/O and timing. The `Page` oracle gives their outcome: whether the first question appears, the elements of the block found for each label, and whether Submit becomes clickable.
- The timestamp `datetime.now()` read at each screenshot (line 162) is a parameter: `now` of a single capture, and one field of `Clock` per screenshot of a whole run. Nothing ties the fields to the order or the spacing of the captures. The screenshot bytes are not modelled.
- The outer `except` of `automate_google_form` (lines 213-216) is not modelled. Every modelled step catches its own failures, so in the model nothing reaches it.
- An exception from `driver.get` or from the wait in `fill_form` (lines 105-109) is folded into the page not becoming ready.
- FormFiller.GoogleFormFiller.FillForm: the scroll to the top at line 151 runs after every field is typed; if it raised, the source would return False with the entries typed. The model has no such outcome: after a successful run it always succeeds.
- FormFiller.Browser.SaveScreenshot: Selenium's `save_screenshot` reports a failed file write by returning False, and `capture_screenshot` (lines 164-166) ignores that and returns the path. `canSave` says only that the call does not raise; the saved log lists the paths passed to such calls, not files known to be written. So `AutomationResultSome` promises that the screenshot call did not raise, not that the file exists.
- FormFiller.AutomationShots: `canSave` is one constant per session, so a run in which the "2_filled" screenshot raises and the later "5_confirmation" one does not cannot be expressed.
- FormFiller.AutomateGoogleForm: if `driver.quit()` raises inside the `finally` (line 218), the source propagates that exception in place of the return value. Here the quit always succeeds.
- FormFiller.GoogleFormFiller.SubmitForm: the scrolls at lines 174 and 185 can raise. If the one at 185 raises after the click, the source returns the "5_submit_error" path although Submit was clicked; if the one at 174 raises, that path comes back without a click even when Submit is clickable. The model treats both scrolls as never raising, so it has neither outcome.
- The scroll in `fill_field` (line 71) is not modelled separately; a block whose scroll raised would fail the call like a block that is not found.
- The narrative paragraphs of the email body (the approach description, the resume link, the availability sentence at email_sender.py:114-115 and the technology list) are not reproduced. The constants `Introduction`, `Documentation` and `Availability` keep only the section headings around the modelled parts.
- Flask application set-up and `configure_mail` (email_sender.py:14-27) are transport configuration. The transport is the `Mailer` oracle.
- Reading attachment files can raise in the source. Here a path that exists is always readable.
- Config.Load: the `int()` error text quotes the value with Python's `repr`. Here it is quoted plainly.
- Text.ParseDecimal: `int()` also accepts a sign, surrounding whitespace, digit-group underscores and non-ASCII decimal digits (such as full-width "５８７"). Only '0'-'9' are accepted here; the other forms are treated as invalid.
- `load_dotenv()` is environment I/O. The environment after loading is the input map.
- Console printing is not modelled, and neither is main.py, which only calls the modelled parts in sequence.
