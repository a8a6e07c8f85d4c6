# xunit-slack-reporter, modelled in Dafny

`app/script.py` is a CI step with one function, `main()`. It checks that its
settings are present and picks the XUnit report files: either a glob
resolved against the GitHub workspace, or a single path. It then adds up the
`tests`, `failures` and `errors` counters of every report and builds a Slack
attachment with five fields. It sends that attachment to a channel and
optionally exits with status 1.

This project models `main()` without its environment, file-system and network
plumbing:

- `Script.CheckSettings` models the presence checks, in the script's order.
- `Script.SelectFiles` models the choice between the glob and the path. A
  variable that is set to the empty string passes the presence check but
  selects nothing. `files` is then never bound, and the loop at line 47 raises
  a NameError (`ScriptError.FilesUnbound`).
- `Reports.AggregateReports` is the loop at lines 47-56. It is proved equal to
  the recursive sums `Reports.Total` and the sticky flag `Reports.AnyIssues`.
- `Notify.BuildAttachment` appends the five fields and overwrites the colour.
  It is proved equal to `Notify.AttachmentFor`. Integer values are rendered as
  Python's `str` does. The elapsed time is rendered as `strftime("%H:%M:%S",
  gmtime(n))`. Both renderings have parsers, and round-trip lemmas link each
  rendering to its parser.
- `Script.Dispatch` and `Script.Run` model the send and exit decision as
  written. The test `if not file_contains_failures` (line 104) sits inside
  `if file_contains_failures` (line 100), so a clean run never sends a
  message, whatever `only_notify_on_issues` says. The model keeps that
  behaviour. `Script.SuccessNotificationUnreachable` proves where it departs
  from the policy that the comments at lines 103 and 110 describe.

Facts about the code that the model keeps:

- At least one of the path and glob variables must be present (line 13). When
  both are present, a non-empty glob wins over the path (lines 31-35).
- Nothing checks that `failures + errors <= tests`. The model takes any
  integers, so the "passed" count can be negative.

## Model

| member | source | states |
|---|---|---|
| Script.CheckSettings | app/script.py:13-21 | the run is rejected exactly when neither xunit variable is present, or the channel is missing, or the token is missing; the first failing check in that order names the error |
| Script.SelectFiles | app/script.py:28-35 | a non-empty glob is chosen before a non-empty path; no source is chosen exactly when both read as empty strings |
| Script.ReportsOf | app/script.py:31-35 | a glob source reads exactly the glob's matches in enumeration order; a path source reads exactly one report, the one at the path |
| Script.AuthorName | app/script.py:59-60 | the author name is the title override when that variable is present, and "JUnit Slack Reporter" otherwise |
| Script.EmptyPathPassesCheckButSelectsNothing | app/script.py:13-47 | a path variable that is present but empty passes the settings check and still selects no files |
| Reports.AggregateReports | app/script.py:38-56 | the counters after the loop are the sums of `tests`, `tests - errors - failures`, `failures` and `errors`; passed + failed + broken = total at every iteration; the flag holds exactly when some report has non-zero errors or failures; no reports gives all zeros and no flag |
| Reports.TotalAppend | app/script.py:52-55 | each running counter over a concatenation of report lists is the sum of the counters over the parts |
| Reports.AnyIssuesAppend | app/script.py:49-50 | the flag over a concatenation is the disjunction of the flags over the parts |
| Reports.AnyIssuesIffSome | app/script.py:45-50 | the sticky flag is true exactly when at least one report has non-zero errors or failures |
| Reports.BalancedTotals | app/script.py:52-55 | the sums of passed, failed and errored tests add up to the sum of tests |
| Reports.ContainsFailuresSticky | app/script.py:45-50 | once a report with issues has been seen, later reports never clear the flag; later clean reports leave it unchanged |
| Reports.SummarizeOrderIndependent | app/script.py:47-56 | swapping two blocks of reports leaves the aggregate unchanged |
| Reports.SummarizeCongruence | app/script.py:47-56 | two blocks of reports with equal aggregates give equal aggregates after any common prefix |
| Reports.SummarizeMoveToEnd | app/script.py:47-56 | moving one report to the end of the list leaves the aggregate unchanged |
| Reports.SummarizePermutation | app/script.py:47-56 | any two report lists that are rearrangements of each other give the same aggregate, so the file enumeration order does not matter |
| Text.NatToDecimal | app/script.py:72 | the decimal rendering of a natural is a non-empty string of digits with no leading zero; a single digit for naturals below 10, so zero renders as `0` |
| Text.NatToDecimalRoundTrip | app/script.py:72 | reading the digits of a rendered natural gives back the natural |
| Text.IntToDecimal | app/script.py:72-90 | `f"{n}"` of an integer is digits, preceded by a minus sign exactly when the integer is negative |
| Text.IntToDecimalRoundTrip | app/script.py:72-90 | reading a rendered integer back gives the integer, so each counter field carries its counter |
| Text.Pad2 | app/script.py:96 | a number below 100 is rendered as exactly two digits that read back as the number |
| Text.Clock | app/script.py:96 | the elapsed-time rendering is eight characters with colons at positions 2 and 5 |
| Text.TimeOfDay | app/script.py:96 | hours `n/3600 mod 24`, minutes `n/60 mod 60` and seconds `n mod 60` are the time of day of `n`, and add up to `n` modulo one day |
| Text.ClockRoundTrip | app/script.py:96 | `HH:MM:SS` reads back as `(n/3600)%24`, `(n/60)%60` and `n%60`, which lie below 24, 60 and 60 and recompose `n` modulo one day |
| Notify.AttachmentShape | app/script.py:62-101 | the attachment has exactly five fields titled "Total # of tests", "Tests passed", "Tests errored", "Tests failed", "Time elapsed" in that order, all short; their values read back as total, passed, errored and failed counts and the time of day; the colour is the fail colour exactly when some report had issues |
| Notify.BuildAttachment | app/script.py:62-101 | appending the five fields to an empty list and overwriting the colour on failure gives exactly the attachment described above |
| Script.Dispatch | app/script.py:100-121 | a message is sent exactly when some report had issues, whatever `only_notify_on_issues` says; `failed_tests` is set exactly when a message is sent; the exit status is 1 exactly when `exit_on_failure` and `failed_tests` both hold, else 0 |
| Script.SuccessNotificationUnreachable | app/script.py:100-116 | the code differs from the commented policy exactly on a clean run with `only_notify_on_issues` unset, where it sends nothing; the flag never changes the decision |
| Script.Run | app/script.py:11-121 | a settings error or unbound file list aborts before any message; otherwise at most one message goes to the configured channel with the attachment for the aggregate, and it is sent exactly when `failed_tests` ends up true; the exit status is 1 exactly when `exit_on_failure` and `failed_tests` hold |

## Left out

- Reading environment variables and the lower-cased `"true"` comparison (lines 24-25): the two flags are booleans in `Script.Settings`.
- Glob resolution against `GITHUB_WORKSPACE` with `pathlib` (lines 31-35): the reports of the matched files are an input sequence `globMatches`, in enumeration order.
- Script.Run: when a glob is set and `GITHUB_WORKSPACE` is unset, `pathlib.Path(None)` at line 32 raises a TypeError. The model has no workspace input and reports `Completed` in that case.
- `xunit_utils.read_xunit` (line 48) is not part of this model: each file's parsed counters are an input, and a parse error, which would abort the run, is not modelled.
- `slack_utils.send_slack_msg` (lines 106, 112) is not part of this model: a call is recorded as a `Script.Message` in the outcome, and delivery errors are not modelled.
- Token use: the token is only checked for presence; using it is inside the Slack client.
- The float sum of report times and Python's `round` (lines 44, 56, 96): the model starts from the rounded whole number of seconds.
- `author_link` and `title` (lines 65-66) only pass GitHub metadata through and are left out of `Notify.Attachment`.
- The literal colour values of `PASS_COLOR` and `FAIL_COLOR` are in app/constants.py, which is not part of this model. They are the two values of `Notify.Color`.
- `sys.exit` (line 121) becomes the `exitCode` of the outcome. An uncaught exception becomes `Aborted`.
