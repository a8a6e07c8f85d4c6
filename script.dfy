/** `main()` of app/script.py: the settings check, the choice of report files,
    the aggregation, the attachment, and the send and exit decision. The
    environment, the file system, the XML parser and the Slack client are
    replaced by parameters and by the returned outcome. */
module Script {
  import opened Wrappers
  import opened Reports
  import opened Notify

  /** Which environment variables are present, and the values of those that matter. */
  datatype Settings = Settings(
    xunitPath: Option<string>,
    xunitGlob: Option<string>,
    slackChannel: Option<string>,
    slackToken: Option<string>,
    onlyNotifyOnIssues: bool,
    exitOnFailure: bool,
    messageTitle: Option<string>)

  /** The exceptions `main()` raises before it reaches Slack. `FilesUnbound` is
      the NameError at line 47 when `files` was never assigned. */
  datatype ScriptError = MissingXunitFile | MissingSlackChannel | MissingSlackToken | FilesUnbound

  /** Lines 13-21: the presence checks, in the order the script makes them. */
  function CheckSettings(s: Settings): (r: Option<ScriptError>)
    ensures r.None? <==> (s.xunitPath.Some? || s.xunitGlob.Some?) && s.slackChannel.Some? && s.slackToken.Some?
    ensures r == Some(MissingXunitFile) <==> s.xunitPath.None? && s.xunitGlob.None?
    ensures r == Some(MissingSlackChannel) <==> (s.xunitPath.Some? || s.xunitGlob.Some?) && s.slackChannel.None?
    ensures r == Some(MissingSlackToken) <==>
      (s.xunitPath.Some? || s.xunitGlob.Some?) && s.slackChannel.Some? && s.slackToken.None?
    ensures r != Some(FilesUnbound)
  {
    if s.xunitPath.None? && s.xunitGlob.None? then Some(MissingXunitFile)
    else if s.slackChannel.None? then Some(MissingSlackChannel)
    else if s.slackToken.None? then Some(MissingSlackToken)
    else None
  }

  /** Where the report files come from. */
  datatype FileSource = GlobPattern(pattern: string) | SinglePath(path: string)

  /** Lines 28-35: a non-empty glob wins over a non-empty path; when both read
      as empty strings no source is chosen. */
  function SelectFiles(s: Settings): (r: Option<FileSource>)
    ensures r.None? <==> s.xunitGlob.GetOr("") == "" && s.xunitPath.GetOr("") == ""
    ensures r.Some? && r.value.GlobPattern? ==> r.value.pattern == s.xunitGlob.GetOr("") && r.value.pattern != ""
    ensures r.Some? && r.value.SinglePath? ==> r.value.path == s.xunitPath.GetOr("") && r.value.path != "" && s.xunitGlob.GetOr("") == ""
  {
    var glob := s.xunitGlob.GetOr("");
    var path := s.xunitPath.GetOr("");
    if glob != "" then Some(GlobPattern(glob))
    else if path != "" then Some(SinglePath(path))
    else None
  }

  /** A variable that is present but empty passes the presence check and still
      leaves `files` unassigned. */
  lemma EmptyPathPassesCheckButSelectsNothing(channel: string, token: string)
    ensures var s := Settings(Some(""), None, Some(channel), Some(token), false, false, None);
      CheckSettings(s).None? && SelectFiles(s).None?
  {
  }

  /** The reports `read_xunit` returns for the chosen source: the glob's matches
      in enumeration order, or the one file at the path. */
  function ReportsOf(source: FileSource, globMatches: seq<XunitReport>, pathReport: XunitReport): (r: seq<XunitReport>)
    ensures source.SinglePath? ==> |r| == 1 && r[0] == pathReport
    ensures source.GlobPattern? ==> r == globMatches
  {
    match source
    case GlobPattern(_) => globMatches
    case SinglePath(_) => [pathReport]
  }

  /** Lines 59-60: the title override when present, the fixed name otherwise. */
  function AuthorName(s: Settings): (r: string)
    ensures s.messageTitle.None? ==> r == DefaultAuthorName
    ensures s.messageTitle.Some? ==> r == s.messageTitle.value
  {
    s.messageTitle.GetOr(DefaultAuthorName)
  }

  /** What the end of `main()` does: send a message or not, mark the run as failed or not, exit code. */
  datatype Decision = Decision(send: bool, failedTests: bool, exitCode: int)

  /** Lines 100-121 as written. The inner `not file_contains_failures` test sits
      inside the block guarded by `file_contains_failures`, so the success
      notification is unreachable and `only_notify_on_issues` has no effect. */
  function Dispatch(containsFailures: bool, onlyNotifyOnIssues: bool, exitOnFailure: bool): (d: Decision)
    ensures d.send <==> containsFailures
    ensures d.failedTests <==> d.send
    ensures d.exitCode == 1 <==> exitOnFailure && d.failedTests
    ensures d.exitCode == 0 || d.exitCode == 1
  {
    var (send, failedTests) :=
      if containsFailures then
        if !containsFailures then
          (!onlyNotifyOnIssues, false)
        else
          (true, true)
      else
        (false, false);
    Decision(send, failedTests, if exitOnFailure && failedTests then 1 else 0)
  }

  /** The policy the comments at lines 103 and 110 describe: always notify on
      issues, and on success unless `only_notify_on_issues` is set. */
  function DescribedSend(containsFailures: bool, onlyNotifyOnIssues: bool): bool {
    containsFailures || !onlyNotifyOnIssues
  }

  /** The code departs from the described policy exactly on a clean run with
      `only_notify_on_issues` unset, where it stays silent. */
  lemma SuccessNotificationUnreachable(containsFailures: bool, onlyNotifyOnIssues: bool, exitOnFailure: bool)
    ensures Dispatch(containsFailures, onlyNotifyOnIssues, exitOnFailure).send != DescribedSend(containsFailures, onlyNotifyOnIssues)
      <==> !containsFailures && !onlyNotifyOnIssues
    ensures Dispatch(containsFailures, onlyNotifyOnIssues, exitOnFailure) == Dispatch(containsFailures, !onlyNotifyOnIssues, exitOnFailure)
  {
  }

  /** One call of `send_slack_msg(channel, attachments=[...])`. */
  datatype Message = Message(channel: string, attachments: seq<Attachment>)

  /** How a run ends: an exception before Slack, or completion with the
      messages sent and the exit status (1 from `sys.exit(1)`, 0 otherwise). */
  datatype RunOutcome =
    | Aborted(error: ScriptError)
    | Completed(sent: seq<Message>, failedTests: bool, exitCode: int)

  /** `main()`. `globMatches` are the reports of the files the glob matches,
      `pathReport` the report at the single path, `elapsedSeconds` the rounded
      sum of the reports' times. */
  method Run(settings: Settings, globMatches: seq<XunitReport>, pathReport: XunitReport, elapsedSeconds: nat)
    returns (out: RunOutcome)
    ensures CheckSettings(settings).Some? ==> out == Aborted(CheckSettings(settings).value)
    ensures CheckSettings(settings).None? && SelectFiles(settings).None? ==> out == Aborted(FilesUnbound)
    ensures CheckSettings(settings).None? && SelectFiles(settings).Some? ==>
      var summary := Summarize(ReportsOf(SelectFiles(settings).value, globMatches, pathReport));
      var d := Dispatch(summary.containsFailures, settings.onlyNotifyOnIssues, settings.exitOnFailure);
      var message := Message(settings.slackChannel.value, [AttachmentFor(summary, AuthorName(settings), elapsedSeconds)]);
      out == Completed(if d.send then [message] else [], d.failedTests, d.exitCode)
    ensures out.Completed? ==>
      (|out.sent| == 1 || out.sent == []) &&
      (out.sent != [] <==> out.failedTests) &&
      (out.exitCode == 1 <==> settings.exitOnFailure && out.failedTests) &&
      (out.exitCode == 0 || out.exitCode == 1) &&
      forall m :: m in out.sent ==> m.channel == settings.slackChannel.value && |m.attachments| == 1 && m.attachments[0].color == FailColor
  {
    var error := CheckSettings(settings);
    if error.Some? {
      return Aborted(error.value);
    }
    var source := SelectFiles(settings);
    if source.None? {
      return Aborted(FilesUnbound);
    }
    var reports := ReportsOf(source.value, globMatches, pathReport);
    var summary := AggregateReports(reports);
    var attachment := BuildAttachment(summary, AuthorName(settings), elapsedSeconds);
    var message := Message(settings.slackChannel.value, [attachment]);

    var sent: seq<Message> := [];
    var failedTests := false;
    if summary.containsFailures {
      if !summary.containsFailures {
        if !settings.onlyNotifyOnIssues {
          sent := sent + [message];
        }
      } else {
        sent := sent + [message];
        failedTests := true;
      }
    }

    var exitCode := 0;
    if settings.exitOnFailure {
      if failedTests {
        exitCode := 1;
      }
    }
    out := Completed(sent, failedTests, exitCode);
  }
}
