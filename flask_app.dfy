/**
 * The request/response web server: its process-wide job map, the request
 * handlers that create and read job records, the background job runner, and
 * the shape of its two search tools.
 */
module FlaskApp {
  import opened Wrappers
  import opened Strings
  import opened Jobs
  import opened SearchTools

  /** Every submission is filed under this one job id. */
  const JOB_ID := "Resources"
  const DEFAULT_LEVEL := "intermediate"

  /** The body of the server's generic error page for an unhandled exception. */
  const INTERNAL_ERROR := "Internal Server Error"

  /** The JSON body of a start request; a key the client left out is `None`. */
  datatype StartRequest = StartRequest(topicName: Option<string>, learningLevel: Option<string>)

  /** The reply `{'job_id': ..., 'status': 'started'}`. */
  datatype StartReply = StartReply(jobId: string, status: string)

  /** A status reply: a copy of the record plus the report and the queries read back from disk. */
  datatype Snapshot = Snapshot(job: Job, summary: Option<string>, queries: Option<seq<string>>)

  /** A file sent as an attachment under a download name. */
  datatype Attachment = Attachment(path: string, downloadName: string)

  /**
   * The checks of `start_learning`: the topic is stripped and must not be
   * blank (400 otherwise); a missing level becomes "intermediate". The level
   * itself is not checked.
   */
  function ValidateStart(req: StartRequest): (r: Response<(string, string)>)
    ensures r.Error? <==> AllSpace(req.topicName.GetOr(""), IsPySpace)
    ensures r.Error? ==> r == Error(400, "Topic name is required")
    ensures r.Ok? ==> r.body.0 == Strip(req.topicName.value, IsPySpace) && r.body.0 != []
    ensures r.Ok? ==> r.body.1 == req.learningLevel.GetOr(DEFAULT_LEVEL)
  {
    var topic := Strip(req.topicName.GetOr(""), IsPySpace);
    if topic == [] then Error(400, "Topic name is required")
    else Ok((topic, req.learningLevel.GetOr(DEFAULT_LEVEL)))
  }

  /**
   * The record after `run_learning_crew`, given whether creating the job
   * directory and the crew's kickoff raised: `running`, then `completed` with
   * the job directory as `result_path`, or `failed` with the message as `error`.
   */
  function AfterRun(j: Job, jobId: string, makeDir: Outcome, kickoff: Outcome, now: string): (r: Job)
    ensures r.topic == j.topic && r.level == j.level && r.startedAt == j.startedAt && r.summary == j.summary
    ensures r.status.IsTerminal()
    ensures r.status == Completed <==> makeDir.Success? && kickoff.Success?
    ensures r.status == Completed ==>
      && r.progress == "Complete!" && r.resultPath == Some(JobDir(jobId))
      && r.completedAt == Some(now) && r.error == j.error
    ensures r.status == Failed ==>
      && r.error == Some(if makeDir.Failure? then makeDir.message else kickoff.message)
      && r.progress == (if makeDir.Failure? then "Initializing agents..." else "Running search agents...")
      && r.resultPath == j.resultPath && r.completedAt == j.completedAt
    ensures WellFormed(j) && !j.status.IsTerminal() ==> WellFormed(r)
  {
    var initializing := j.(status := Running, progress := "Initializing agents...");
    if makeDir.Failure? then initializing.(status := Failed, error := Some(makeDir.message))
    else
      var searching := initializing.(progress := "Running search agents...");
      if kickoff.Failure? then searching.(status := Failed, error := Some(kickoff.message))
      else searching.(status := Completed, progress := "Complete!", resultPath := Some(JobDir(jobId)), completedAt := Some(now))
  }

  /** The path of artifact `name` that a status read looks for, when the record is completed with a result path. */
  function ResultFile(j: Job, name: string): Option<string> {
    if j.status == Completed && j.resultPath.Some? then Some(Join(j.resultPath.value, name)) else None
  }

  /** Filing a record under `JOB_ID` in a map keyed by nothing else leaves `JOB_ID` its only key. */
  lemma FiledUnderJobId(jobs: map<string, Job>, j: Job, after: map<string, Job>)
    requires jobs.Keys <= {JOB_ID} && after == jobs[JOB_ID := j]
    ensures after.Keys <= {JOB_ID}
    ensures forall id :: id in after <==> id == JOB_ID
  {
  }

  /** The process-wide job map `active_jobs`. */
  class Registry {
    var activeJobs: map<string, Job>

    /** Since every job is filed under `JOB_ID`, the map never holds more than that one key. */
    ghost predicate Valid()
      reads this
    {
      activeJobs.Keys <= {JOB_ID}
    }

    constructor ()
      ensures Valid() && activeJobs == map[]
    {
      activeJobs := map[];
    }

    /**
     * `POST /api/start-learning`: a blank topic is refused with 400 and the
     * map is untouched; otherwise a `starting` record replaces whatever was
     * filed under `JOB_ID`.
     */
    method StartLearning(req: StartRequest, now: string) returns (reply: Response<StartReply>)
      requires Valid()
      modifies this
      ensures Valid()
      ensures reply.Error? <==> ValidateStart(req).Error?
      ensures reply.Error? ==> reply == Error(400, "Topic name is required") && activeJobs == old(activeJobs)
      ensures reply.Ok? ==> forall id :: id in activeJobs <==> id == JOB_ID
      ensures reply.Ok? ==>
        && reply.body == StartReply(JOB_ID, "started")
        && activeJobs == old(activeJobs)[JOB_ID := NewJob(ValidateStart(req).body.0, ValidateStart(req).body.1, now)]
    {
      var checked := ValidateStart(req);
      if checked.Error? {
        return Error(checked.code, checked.message);
      }
      var topicName, learningLevel := checked.body.0, checked.body.1;
      var jobId := JOB_ID;
      var before := activeJobs;
      activeJobs := activeJobs[jobId := NewJob(topicName, learningLevel, now)];
      FiledUnderJobId(before, NewJob(topicName, learningLevel, now), activeJobs);
      reply := Ok(StartReply(jobId, "started"));
    }

    /**
     * The background runner, one step at a time. `makeDir` and `kickoff` say
     * whether creating the job directory and running the crew raised; `topicName`
     * and `learningLevel` only feed the crew, which the model treats as opaque.
     */
    method RunLearningCrew(jobId: string, topicName: string, learningLevel: string,
                           makeDir: Outcome, kickoff: Outcome, now: string)
      requires jobId in activeJobs
      requires Valid()
      modifies this
      ensures Valid()
      ensures activeJobs == old(activeJobs)[jobId := AfterRun(old(activeJobs[jobId]), jobId, makeDir, kickoff, now)]
    {
      activeJobs := activeJobs[jobId := activeJobs[jobId].(status := Running)];
      activeJobs := activeJobs[jobId := activeJobs[jobId].(progress := "Initializing agents...")];
      var jobOutputDir := Join(OUTPUT_DIR, "job_" + jobId);
      if makeDir.Failure? {
        activeJobs := activeJobs[jobId := activeJobs[jobId].(status := Failed)];
        activeJobs := activeJobs[jobId := activeJobs[jobId].(error := Some(makeDir.message))];
        return;
      }
      activeJobs := activeJobs[jobId := activeJobs[jobId].(progress := "Running search agents...")];
      if kickoff.Failure? {
        activeJobs := activeJobs[jobId := activeJobs[jobId].(status := Failed)];
        activeJobs := activeJobs[jobId := activeJobs[jobId].(error := Some(kickoff.message))];
        return;
      }
      activeJobs := activeJobs[jobId := activeJobs[jobId].(status := Completed)];
      activeJobs := activeJobs[jobId := activeJobs[jobId].(progress := "Complete!")];
      activeJobs := activeJobs[jobId := activeJobs[jobId].(resultPath := Some(jobOutputDir))];
      activeJobs := activeJobs[jobId := activeJobs[jobId].(completedAt := Some(now))];
    }

    /**
     * `GET /api/job-status/<id>`: 404 for an unknown id, otherwise a copy of
     * the record. For a completed record with a result path, the report and
     * the queries file are attached when they exist and read (and, for the
     * queries, decode); a read that raises ends the loading, keeping what was
     * attached before it.
     */
    function JobStatus(jobId: string, fs: FileSystem, decode: string -> Option<seq<string>>): (r: Response<Snapshot>)
      reads this
      ensures r.Error? <==> jobId !in activeJobs
      ensures r.Error? ==> r == Error(404, "Job not found")
      ensures r.Ok? ==> r.body.job == activeJobs[jobId]
      ensures r.Ok? ==>
        var summaryFile := ResultFile(activeJobs[jobId], SUMMARY_FILE);
        (r.body.summary.Some? <==> summaryFile.Some? && summaryFile.value in fs && fs[summaryFile.value].Readable?)
        && (r.body.summary.Some? ==> fs[summaryFile.value] == Readable(r.body.summary.value))
      ensures r.Ok? ==>
        var summaryFile := ResultFile(activeJobs[jobId], SUMMARY_FILE);
        var queriesFile := ResultFile(activeJobs[jobId], QUERIES_FILE);
        (r.body.queries.Some? <==>
          && queriesFile.Some?
          && !(summaryFile.value in fs && !fs[summaryFile.value].Readable?)
          && queriesFile.value in fs && fs[queriesFile.value].Readable?
          && decode(fs[queriesFile.value].content).Some?)
        && (r.body.queries.Some? ==> r.body.queries == decode(fs[queriesFile.value].content))
    {
      if jobId !in activeJobs then Error(404, "Job not found")
      else
        var job := activeJobs[jobId];
        if job.status == Completed && job.resultPath.Some? then
          var resultPath := job.resultPath.value;
          var summaryPath := Join(resultPath, SUMMARY_FILE);
          if summaryPath in fs && !fs[summaryPath].Readable? then Ok(Snapshot(job, None, None))
          else
            var summary := if summaryPath in fs then Some(fs[summaryPath].content) else None;
            var queriesPath := Join(resultPath, QUERIES_FILE);
            var queries := if queriesPath in fs && fs[queriesPath].Readable? then decode(fs[queriesPath].content) else None;
            Ok(Snapshot(job, summary, queries))
        else Ok(Snapshot(job, None, None))
    }

    /**
     * `GET /api/download-report/<id>`: 404 unless the job exists and is
     * completed, 404 when its report file is missing, the report as an
     * attachment otherwise, sent as bytes, so a report that is not UTF-8 text
     * still downloads. A completed record without `result_path`, or a report
     * that exists but cannot be opened, makes the handler raise, and the
     * server answers with its generic 500.
     */
    function DownloadReport(jobId: string, fs: FileSystem): (r: Response<Attachment>)
      reads this
      ensures jobId !in activeJobs || activeJobs[jobId].status != Completed ==>
        r == Error(404, "Job not found or not completed")
      ensures r.Ok? <==> jobId in activeJobs && ResultFile(activeJobs[jobId], SUMMARY_FILE).Some?
                         && ResultFile(activeJobs[jobId], SUMMARY_FILE).value in fs
                         && !fs[ResultFile(activeJobs[jobId], SUMMARY_FILE).value].Unreadable?
      ensures r.Ok? ==> r.body == Attachment(ResultFile(activeJobs[jobId], SUMMARY_FILE).value, "learning_report_" + jobId + ".md")
      ensures r.Error? && r.code == 500 <==>
        jobId in activeJobs && activeJobs[jobId].status == Completed
        && (activeJobs[jobId].resultPath.None?
            || (ResultFile(activeJobs[jobId], SUMMARY_FILE).value in fs
                && fs[ResultFile(activeJobs[jobId], SUMMARY_FILE).value].Unreadable?))
      ensures jobId in activeJobs && activeJobs[jobId].status == Completed
              && ResultFile(activeJobs[jobId], SUMMARY_FILE).Some?
              && ResultFile(activeJobs[jobId], SUMMARY_FILE).value !in fs ==>
        r == Error(404, "Report file not found")
      ensures r.Error? && r.code == 500 ==> r.message == INTERNAL_ERROR
    {
      if jobId !in activeJobs || activeJobs[jobId].status != Completed then Error(404, "Job not found or not completed")
      else if activeJobs[jobId].resultPath.None? then Error(500, INTERNAL_ERROR)
      else
        var summaryPath := Join(activeJobs[jobId].resultPath.value, SUMMARY_FILE);
        if summaryPath !in fs then Error(404, "Report file not found")
        else if fs[summaryPath].Unreadable? then Error(500, INTERNAL_ERROR)
        else Ok(Attachment(summaryPath, "learning_report_" + jobId + ".md"))
    }

    /**
     * For a well-formed record the download fails with 500 only on a report
     * file that exists but cannot be read, and a report that the status read
     * attached can always be downloaded.
     */
    lemma ReportAvailability(jobId: string, fs: FileSystem, decode: string -> Option<seq<string>>)
      requires jobId in activeJobs ==> WellFormed(activeJobs[jobId])
      ensures DownloadReport(jobId, fs).Error? && DownloadReport(jobId, fs).code == 500 ==>
        var path := ResultFile(activeJobs[jobId], SUMMARY_FILE);
        path.Some? && path.value in fs && fs[path.value].Unreadable?
      ensures JobStatus(jobId, fs, decode).Ok? && JobStatus(jobId, fs, decode).body.summary.Some? ==> DownloadReport(jobId, fs).Ok?
    {
    }

    /**
     * A report that opens but is not UTF-8 text is left out of the status
     * read, which decodes it, yet downloads, because the file is sent as bytes.
     */
    lemma NotTextReportDownloads(jobId: string, fs: FileSystem, decode: string -> Option<seq<string>>)
      requires jobId in activeJobs && activeJobs[jobId].status == Completed
      requires ResultFile(activeJobs[jobId], SUMMARY_FILE).Some?
      requires ResultFile(activeJobs[jobId], SUMMARY_FILE).value in fs
      requires fs[ResultFile(activeJobs[jobId], SUMMARY_FILE).value].NotText?
      ensures JobStatus(jobId, fs, decode).Ok? && JobStatus(jobId, fs, decode).body.summary.None?
      ensures DownloadReport(jobId, fs).Ok?
    {
    }
  }

  /**
   * Because all submissions share `JOB_ID`, the thread of an earlier
   * submission acts on the record of a later one. A run that completes on the
   * new record followed by the new record's own run failing leaves a `failed`
   * record carrying both `result_path` and `error`.
   */
  lemma SharedIdRunsMixOutcomes(topic: string, level: string, now: string)
    ensures var j := AfterRun(AfterRun(NewJob(topic, level, now), JOB_ID, Success, Success, now),
                              JOB_ID, Success, Failure("boom"), now);
            j.status == Failed && j.resultPath.Some? && j.error.Some? && !WellFormed(j)
  {
  }

  /** The web server's visual filters: no space before `site:` and none after "free". */
  const FLASK_VISUAL_FILTERS: seq<Filter> := [
    Filter("", "site:youtube.com"),
    Filter("free", "site:udemy.com"),
    Filter("free", "site:coursera.org")]

  /** The web server's text filters, again with no space before `site:`. */
  const FLASK_TEXT_FILTERS: seq<Filter> := [
    Filter("", "site:medium.com"),
    Filter("", "site:arxiv.org"),
    Filter("", "site:github.com"),
    Filter("", "site:paperswithcode.com")]

  /** One search per filter, in order; `None` as soon as a call raises. */
  function RawResponses(query: string, filters: seq<Filter>, search: Search): (r: Option<seq<SearchResponse>>)
    ensures r.Some? <==> forall i :: 0 <= i < |filters| ==> search(Rewrite(query, filters[i]), RESULTS_NUM).Some?
    ensures r.Some? ==> |r.value| == |filters|
    ensures r.Some? ==> forall i :: 0 <= i < |filters| ==> Some(r.value[i]) == search(Rewrite(query, filters[i]), RESULTS_NUM)
  {
    if filters == [] then Some([])
    else
      var first := search(Rewrite(query, filters[0]), RESULTS_NUM);
      var rest := RawResponses(query, filters[1..], search);
      assert forall i :: 1 <= i < |filters| ==> filters[i] == filters[1..][i - 1];
      if first.Some? && rest.Some? then Some([first.value] + rest.value) else None
  }

  /** The web server's `visual_search_tool`: the three raw responses, unconverted, or `[]` if a call raised. */
  function VisualSearchTool(query: string, search: Search): (r: seq<SearchResponse>)
    ensures r == [] || |r| == 3
    ensures |r| == 3 <==> forall i :: 0 <= i < 3 ==> search(Rewrite(query, FLASK_VISUAL_FILTERS[i]), RESULTS_NUM).Some?
    ensures |r| == 3 ==> forall i :: 0 <= i < 3 ==> Some(r[i]) == search(Rewrite(query, FLASK_VISUAL_FILTERS[i]), RESULTS_NUM)
  {
    RawResponses(query, FLASK_VISUAL_FILTERS, search).GetOr([])
  }

  /** The web server's `text_search_tool`: the four raw responses, or `[]` if a call raised. */
  function TextSearchTool(query: string, search: Search): (r: seq<SearchResponse>)
    ensures r == [] || |r| == 4
    ensures |r| == 4 <==> forall i :: 0 <= i < 4 ==> search(Rewrite(query, FLASK_TEXT_FILTERS[i]), RESULTS_NUM).Some?
    ensures |r| == 4 ==> forall i :: 0 <= i < 4 ==> Some(r[i]) == search(Rewrite(query, FLASK_TEXT_FILTERS[i]), RESULTS_NUM)
  {
    RawResponses(query, FLASK_TEXT_FILTERS, search).GetOr([])
  }

  /**
   * With no separator the site operator is glued to the user's query and the
   * "free" qualifier to its first word: "python" becomes "pythonsite:youtube.com"
   * and "freepythonsite:udemy.com", so the search engine no longer sees the
   * query's last word or the operator.
   */
  lemma GluedSiteOperator(query: string, i: nat)
    requires i < |FLASK_VISUAL_FILTERS|
    ensures var f := FLASK_VISUAL_FILTERS[i];
      && Rewrite(query, f)[|f.prefix| + |query|] == 's'
      && (f.prefix == [] || f.prefix == "free")
  {
    var f := FLASK_VISUAL_FILTERS[i];
    assert Rewrite(query, f)[|f.prefix| + |query|] == f.suffix[0];
  }

  /** The query "python" as the web server sends it to YouTube and to Udemy. */
  lemma GluedPythonQueries()
    ensures Rewrite("python", FLASK_VISUAL_FILTERS[0]) == "pythonsite:youtube.com"
    ensures Rewrite("python", FLASK_VISUAL_FILTERS[1]) == "freepythonsite:udemy.com"
  {
    assert Rewrite("python", FLASK_VISUAL_FILTERS[0]) == "" + "python" + "site:youtube.com";
    assert Rewrite("python", FLASK_VISUAL_FILTERS[1]) == "free" + "python" + "site:udemy.com";
  }
}
