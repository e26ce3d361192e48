/**
 * The pure parts of the browser client: the form check before a job is
 * started, the progress bar's reading of a job status, the decision taken on
 * each status poll, and the game clock's rendering.
 */
module BrowserClient {
  import opened Wrappers
  import opened Strings
  import opened Jobs
  import StreamlitGame
  import FlaskApp

  /** What the page shows in its progress section. */
  datatype ProgressView = ProgressView(text: string, percent: nat)

  /** `updateProgress`: the text and bar width for a job's reported status. */
  function UpdateProgress(status: string, progress: Option<string>): (v: ProgressView)
    ensures v.percent == 100 <==> status == "completed"
    ensures v.percent == 60 <==> status == "running"
    ensures v.percent == 20 <==> status == "starting"
    ensures v.percent == 40 <==> status !in {"starting", "running", "completed"}
    ensures status == "running" && progress.Some? && progress.value != [] ==> v.text == progress.value
    ensures status == "running" && (progress.None? || progress.value == []) ==> v.text == "Processing..."
  {
    if status == "starting" then ProgressView("Preparing your learning journey...", 20)
    else if status == "running" then
      ProgressView(if progress.Some? && progress.value != [] then progress.value else "Processing...", 60)
    else if status == "completed" then ProgressView("Complete! Processing results...", 100)
    else ProgressView("Processing...", 40)
  }

  /**
   * Along a job's life the bar only moves forward: starting, running,
   * completed read 20, 60, 100; a failed job reads 40.
   */
  lemma ProgressFollowsLifecycle(s: Status, progress: Option<string>)
    ensures UpdateProgress(s.Name(), progress).percent ==
      match s
      case Starting => 20
      case Running => 60
      case Completed => 100
      case Failed => 40
    ensures UpdateProgress(Starting.Name(), progress).percent
          < UpdateProgress(Running.Name(), progress).percent
          < UpdateProgress(Completed.Name(), progress).percent
  {
  }

  datatype FormCheck = Submit(topic: string, level: string) | Reject(message: string)

  /** The submit handler: the trimmed topic and the level must both be non-empty. */
  function ValidateForm(topic: string, level: string): (r: FormCheck)
    ensures r.Submit? <==> !AllSpace(topic, IsJsSpace) && level != []
    ensures r.Reject? ==> r.message == "Please fill in all fields"
    ensures r.Submit? ==> r.topic == Strip(topic, IsJsSpace) && r.level == level
  {
    var t := Strip(topic, IsJsSpace);
    if t == [] || level == [] then Reject("Please fill in all fields") else Submit(t, level)
  }

  lemma StripKeeps(s: string, ws: char -> bool)
    requires s != [] && !ws(s[0]) && !ws(s[|s| - 1])
    ensures Strip(s, ws) == s
  {
  }

  /**
   * A topic the form lets through reaches the server's check intact and is
   * accepted there with the chosen level, provided it holds no character
   * that Python counts as white space and JavaScript does not.
   */
  lemma SubmittedFormAccepted(topic: string, level: string)
    requires !AllSpace(topic, IsJsSpace) && level != []
    requires forall i :: 0 <= i < |topic| ==> IsPySpace(topic[i]) ==> IsJsSpace(topic[i])
    ensures
      var f := ValidateForm(topic, level);
      var reply := FlaskApp.ValidateStart(FlaskApp.StartRequest(Some(f.topic), Some(f.level)));
      reply.Ok? && reply.body == (f.topic, level)
  {
    var u := TrimStart(topic, IsJsSpace);
    var t := Strip(topic, IsJsSpace);
    var lo := |topic| - |u|;
    assert t == TrimEnd(u, IsJsSpace) && t != [];
    assert t[0] == u[0] == topic[lo];
    assert t[|t| - 1] == u[|t| - 1] == topic[lo + |t| - 1];
    assert !IsJsSpace(t[0]) && !IsJsSpace(t[|t| - 1]);
    assert !IsPySpace(t[0]) && !IsPySpace(t[|t| - 1]);
    StripKeeps(t, IsPySpace);
    assert Strip(t, IsPySpace) == t;
    assert !AllSpace(t, IsPySpace);
  }

  /**
   * The two trims differ: a lone information separator passes the form but
   * the server strips it away and answers 400, while a lone byte-order mark
   * is blank to the form but a topic to the server.
   */
  lemma TrimsDisagree()
    ensures ValidateForm("\U{1C}", "beginner").Submit?
    ensures FlaskApp.ValidateStart(FlaskApp.StartRequest(Some("\U{1C}"), Some("beginner")))
         == Error(400, "Topic name is required")
    ensures ValidateForm("\U{FEFF}", "beginner").Reject?
    ensures FlaskApp.ValidateStart(FlaskApp.StartRequest(Some("\U{FEFF}"), Some("beginner"))).Ok?
  {
    assert AllSpace("\U{1C}", IsPySpace);
    assert AllSpace("\U{FEFF}", IsJsSpace);
    assert !IsPySpace('\U{FEFF}');
    assert !AllSpace("\U{FEFF}", IsPySpace) by {
      assert "\U{FEFF}"[0] == '\U{FEFF}';
    }
    assert !AllSpace("\U{1C}", IsJsSpace) by {
      assert "\U{1C}"[0] == '\U{1C}';
    }
  }

  /** What one status poll leads to. */
  datatype PollStep =
    | KeepPolling(view: ProgressView)
    | ShowResults(view: ProgressView)
    | ShowError(message: string)

  /**
   * `checkJobStatus` after the reply arrived: a failed request stops polling
   * with a fixed message; a completed job shows its results; a failed job
   * shows its error; any other status updates the bar and polls again.
   */
  function PollDecision(ok: bool, status: string, progress: Option<string>, error: Option<string>): (r: PollStep)
    ensures r.KeepPolling? <==> ok && status != "completed" && status != "failed"
    ensures r.ShowResults? <==> ok && status == "completed"
    ensures !ok ==> r == ShowError("Failed to check job status")
    ensures ok && status == "failed" ==>
      r == ShowError(if error.Some? && error.value != [] then error.value else "Job failed")
    ensures !r.ShowError? ==> r.view == UpdateProgress(status, progress)
  {
    if !ok then ShowError("Failed to check job status")
    else if status == "completed" then ShowResults(UpdateProgress(status, progress))
    else if status == "failed" then
      ShowError(if error.Some? && error.value != [] then error.value else "Job failed")
    else KeepPolling(UpdateProgress(status, progress))
  }

  /**
   * Polling a record held by the server goes on exactly while the job is
   * starting or running; a failed job's own error message is the one shown.
   */
  lemma PollingFollowsRecord(j: Job)
    requires WellFormed(j) && (j.error.Some? ==> j.error.value != [])
    ensures PollDecision(true, j.status.Name(), Some(j.progress), j.error).KeepPolling? <==> !j.status.IsTerminal()
    ensures j.status == Failed ==> PollDecision(true, j.status.Name(), Some(j.progress), j.error) == ShowError(j.error.value)
  {
  }

  /** `formatTime`: whole minutes, a colon, seconds in two digits. */
  function FormatTime(seconds: nat): string {
    NatToString(seconds / 60) + ":" + TwoDigits(seconds % 60)
  }

  /**
   * The clock reads back as the elapsed minutes and seconds; the seconds
   * always take two digits and the minutes carry no leading zero.
   */
  lemma FormatTimeRoundTrip(seconds: nat)
    ensures var r := FormatTime(seconds);
      && |r| >= 4 && r[|r| - 3] == ':'
      && (r[0] == '0' ==> seconds < 60)
      && ParseClock(r) == Some((seconds / 60, seconds % 60))
  {
    var minutes, secs := seconds / 60, seconds % 60;
    assert FormatTime(seconds) == NatToString(minutes) + ":" + TwoDigits(secs);
    assert secs < 60;
    PlainClock(minutes, secs);
    assert minutes == 0 ==> seconds < 60;
  }

  lemma PlainClock(minutes: nat, seconds: nat)
    requires seconds < 60
    ensures var r := NatToString(minutes) + ":" + TwoDigits(seconds);
      && |r| >= 4 && r[|r| - 3] == ':'
      && (r[0] == '0' ==> minutes == 0)
      && ParseClock(r) == Some((minutes, seconds))
  {
    ParseNatToString(minutes);
    ParseClockOf(NatToString(minutes), TwoDigits(seconds));
  }

  lemma PaddedMinutes(m: nat, s: string)
    ensures m >= 10 ==> TwoDigits(m) + ":" + s == NatToString(m) + ":" + s
    ensures m < 10 ==> TwoDigits(m) + ":" + s == "0" + (NatToString(m) + ":" + s)
  {
  }

  /**
   * The browser clock and the Streamlit clock agree from ten minutes on;
   * before that the Streamlit one carries a leading zero.
   */
  lemma ClocksAgree(seconds: nat)
    ensures seconds >= 600 ==> StreamlitGame.ElapsedClock(seconds) == FormatTime(seconds)
    ensures seconds < 600 ==> StreamlitGame.ElapsedClock(seconds) == "0" + FormatTime(seconds)
  {
    var m, s := seconds / 60, seconds % 60;
    assert StreamlitGame.ElapsedClock(seconds) == TwoDigits(m) + ":" + TwoDigits(s);
    assert FormatTime(seconds) == NatToString(m) + ":" + TwoDigits(s);
    assert seconds < 600 <==> m < 10;
    PaddedMinutes(m, TwoDigits(s));
  }
}
