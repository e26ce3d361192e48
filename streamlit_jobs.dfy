/**
 * The interactive front end's job handling: the per-session job map, job
 * creation from the sidebar form, and the crew runner that reports progress
 * milestones through a callback while it updates the record.
 */
module StreamlitJobs {
  import opened Wrappers
  import opened Strings
  import opened Jobs

  /** One call of the progress callback: a text and a percentage. */
  datatype ProgressReport = ProgressReport(text: string, percent: nat)

  /** Every report the runner can make, in the order it makes them. */
  const MILESTONES: seq<ProgressReport> := [
    ProgressReport("Initializing agents...", 15),
    ProgressReport("Running search agents...", 40),
    ProgressReport("Finding visual resources...", 60),
    ProgressReport("Finding textual resources...", 80),
    ProgressReport("Creating summary...", 90),
    ProgressReport("Complete!", 100)]

  const AGENTS_MISSING := "Agents not initialized properly"

  predicate IsLowerHex(c: char) {
    ('0' <= c <= '9') || ('a' <= c <= 'f')
  }

  /** `str(uuid.uuid4())[:8]`: eight lower-case hexadecimal digits. */
  predicate IsShortUuid(id: string) {
    |id| == 8 && forall i :: 0 <= i < |id| ==> IsLowerHex(id[i])
  }

  /** The sidebar form starts a job only when it was submitted with a non-empty topic and a chosen level. */
  predicate AcceptsSubmission(submitted: bool, topic: string, level: string) {
    submitted && topic != [] && level != []
  }

  /**
   * Whether the runner completes: the agents exist, the job directory was
   * made, the crew's kickoff returned, and the report file, if present, reads.
   */
  predicate CrewSucceeds(jobId: string, agentsReady: bool, makeDir: Outcome, kickoff: Outcome, fs: FileSystem) {
    var summaryPath := Join(JobDir(jobId), SUMMARY_FILE);
    agentsReady && makeDir.Success? && kickoff.Success? && !(summaryPath in fs && !fs[summaryPath].Readable?)
  }

  /** The message of the first step that raised. */
  function FailureMessage(jobId: string, agentsReady: bool, makeDir: Outcome, kickoff: Outcome, fs: FileSystem): string
    requires !CrewSucceeds(jobId, agentsReady, makeDir, kickoff, fs)
  {
    if !agentsReady then AGENTS_MISSING
    else if makeDir.Failure? then makeDir.message
    else if kickoff.Failure? then kickoff.message
    else fs[Join(JobDir(jobId), SUMMARY_FILE)].reason
  }

  /**
   * The record after the runner: `completed` with the job directory, the
   * report text (empty when the file is missing) and a completion time, or
   * `failed` with the first failure's message. The `progress` text is not
   * touched: progress goes only to the callback.
   */
  function CrewRecord(j: Job, jobId: string, agentsReady: bool, makeDir: Outcome, kickoff: Outcome,
                      fs: FileSystem, now: string): (r: Job)
    ensures r.topic == j.topic && r.level == j.level && r.startedAt == j.startedAt && r.progress == j.progress
    ensures r.status.IsTerminal()
    ensures r.status == Completed <==> CrewSucceeds(jobId, agentsReady, makeDir, kickoff, fs)
    ensures r.status == Completed ==>
      var summaryPath := Join(JobDir(jobId), SUMMARY_FILE);
      && r.resultPath == Some(JobDir(jobId)) && r.completedAt == Some(now) && r.error == j.error
      && r.summary == Some(if summaryPath in fs then fs[summaryPath].content else "")
    ensures r.status == Failed ==>
      && r.error == Some(FailureMessage(jobId, agentsReady, makeDir, kickoff, fs))
      && r.resultPath == j.resultPath && r.completedAt == j.completedAt && r.summary == j.summary
    ensures WellFormed(j) && !j.status.IsTerminal() ==> WellFormed(r)
  {
    if !agentsReady then j.(status := Failed, error := Some(AGENTS_MISSING))
    else
      var running := j.(status := Running);
      if makeDir.Failure? then running.(status := Failed, error := Some(makeDir.message))
      else if kickoff.Failure? then running.(status := Failed, error := Some(kickoff.message))
      else
        var summaryPath := Join(JobDir(jobId), SUMMARY_FILE);
        if summaryPath in fs && !fs[summaryPath].Readable? then
          running.(status := Failed, error := Some(fs[summaryPath].reason))
        else
          var summaryContent := if summaryPath in fs then fs[summaryPath].content else "";
          running.(status := Completed, resultPath := Some(JobDir(jobId)), summary := Some(summaryContent),
                   completedAt := Some(now))
  }

  /**
   * The callback reports of one run: a prefix of the milestones, with
   * strictly increasing percentages, ending at 100 exactly when the run
   * completed.
   */
  function CrewReports(jobId: string, agentsReady: bool, makeDir: Outcome, kickoff: Outcome, fs: FileSystem): (reports: seq<ProgressReport>)
    ensures reports <= MILESTONES
    ensures |reports| ==
      if !agentsReady then 0
      else if makeDir.Failure? then 1
      else if !CrewSucceeds(jobId, agentsReady, makeDir, kickoff, fs) then 5
      else 6
    ensures (reports != [] && reports[|reports| - 1].percent == 100) <==> CrewSucceeds(jobId, agentsReady, makeDir, kickoff, fs)
  {
    if !agentsReady then []
    else if makeDir.Failure? then MILESTONES[..1]
    else if !CrewSucceeds(jobId, agentsReady, makeDir, kickoff, fs) then MILESTONES[..5]
    else MILESTONES
  }

  /** The percentages a run reports only go up. */
  lemma CrewReportsIncrease(jobId: string, agentsReady: bool, makeDir: Outcome, kickoff: Outcome, fs: FileSystem)
    ensures var reports := CrewReports(jobId, agentsReady, makeDir, kickoff, fs);
      forall i, k :: 0 <= i < k < |reports| ==> reports[i].percent < reports[k].percent
  {
    var reports := CrewReports(jobId, agentsReady, makeDir, kickoff, fs);
    assert forall i :: 0 <= i < |reports| ==> reports[i] == MILESTONES[i];
  }

  /** The session state that holds the jobs. */
  class Session {
    var jobs: map<string, Job>
    var currentJobId: Option<string>

    /** Every job id in the map came from the id generator, so none contains `/`. */
    ghost predicate Valid()
      reads this
    {
      forall id :: id in jobs ==> IsShortUuid(id)
    }

    constructor ()
      ensures Valid() && jobs == map[] && currentJobId == None
    {
      jobs := map[];
      currentJobId := None;
    }

    /**
     * The sidebar form: an accepted submission files a `starting` record under
     * a freshly generated id and makes it the current job.
     */
    method SubmitForm(submitted: bool, topic: string, level: string, newId: string, now: string)
      requires IsShortUuid(newId)
      requires Valid()
      modifies this
      ensures Valid()
      ensures AcceptsSubmission(submitted, topic, level) ==>
        jobs == old(jobs)[newId := NewJob(topic, level, now)] && currentJobId == Some(newId)
      ensures !AcceptsSubmission(submitted, topic, level) ==>
        jobs == old(jobs) && currentJobId == old(currentJobId)
    {
      if submitted && topic != [] && level != [] {
        var jobId := newId;
        jobs := jobs[jobId := NewJob(topic, level, now)];
        currentJobId := Some(jobId);
      }
    }

    /**
     * `run_learning_crew`: updates the record step by step and returns the
     * reports it sent to the progress callback.
     */
    method RunLearningCrew(jobId: string, topicName: string, learningLevel: string, agentsReady: bool,
                           makeDir: Outcome, kickoff: Outcome, fs: FileSystem, now: string)
      returns (reports: seq<ProgressReport>)
      requires jobId in jobs
      requires Valid()
      modifies this
      ensures Valid() && currentJobId == old(currentJobId)
      ensures jobs == old(jobs)[jobId := CrewRecord(old(jobs[jobId]), jobId, agentsReady, makeDir, kickoff, fs, now)]
      ensures reports == CrewReports(jobId, agentsReady, makeDir, kickoff, fs)
    {
      reports := [];
      ghost var rec := jobs[jobId];
      var failure: Option<string> := None;
      if !agentsReady {
        failure := Some(AGENTS_MISSING);
      } else {
        jobs := jobs[jobId := jobs[jobId].(status := Running)];
        rec := rec.(status := Running);
        assert jobs == old(jobs)[jobId := rec];
        reports := reports + [MILESTONES[0]];
        var jobOutputDir := JobDir(jobId);
        if makeDir.Failure? {
          failure := Some(makeDir.message);
        } else {
          reports := reports + [MILESTONES[1]];
          reports := reports + [MILESTONES[2]];
          reports := reports + [MILESTONES[3]];
          reports := reports + [MILESTONES[4]];
          if kickoff.Failure? {
            failure := Some(kickoff.message);
          } else {
            var summaryPath := Join(jobOutputDir, SUMMARY_FILE);
            var summaryContent := "";
            if summaryPath in fs && !fs[summaryPath].Readable? {
              failure := Some(fs[summaryPath].reason);
            } else {
              if summaryPath in fs {
                summaryContent := fs[summaryPath].content;
              }
              jobs := jobs[jobId := jobs[jobId].(status := Completed, resultPath := Some(jobOutputDir),
                                                 summary := Some(summaryContent), completedAt := Some(now))];
              rec := rec.(status := Completed, resultPath := Some(jobOutputDir),
                          summary := Some(summaryContent), completedAt := Some(now));
              assert jobs == old(jobs)[jobId := rec];
              reports := reports + [MILESTONES[5]];
            }
          }
        }
      }
      // The handler of every exception raised above.
      if failure.Some? {
        jobs := jobs[jobId := jobs[jobId].(status := Failed, error := failure)];
        rec := rec.(status := Failed, error := failure);
        assert jobs == old(jobs)[jobId := rec];
      }
      assert rec == CrewRecord(old(jobs[jobId]), jobId, agentsReady, makeDir, kickoff, fs, now);
    }

    /**
     * The main page's handling of the current job: a `starting` job is set
     * `running` and handed to the runner; any other state is left alone.
     */
    method ProcessCurrentJob(agentsReady: bool, makeDir: Outcome, kickoff: Outcome, fs: FileSystem, now: string)
      returns (reports: seq<ProgressReport>)
      requires Valid()
      modifies this
      ensures Valid() && currentJobId == old(currentJobId)
      ensures
        if currentJobId.Some? && currentJobId.value in old(jobs) && old(jobs)[currentJobId.value].status == Starting then
          var id := currentJobId.value;
          && jobs == old(jobs)[id := CrewRecord(old(jobs)[id].(status := Running), id, agentsReady, makeDir, kickoff, fs, now)]
          && reports == CrewReports(id, agentsReady, makeDir, kickoff, fs)
        else jobs == old(jobs) && reports == []
    {
      reports := [];
      if currentJobId.Some? && currentJobId.value in jobs {
        var jobId := currentJobId.value;
        var job := jobs[jobId];
        if job.status == Starting {
          jobs := jobs[jobId := job.(status := Running)];
          reports := RunLearningCrew(jobId, job.topic, job.level, agentsReady, makeDir, kickoff, fs, now);
        }
      }
    }

    /** The "Try Again" button under a failed job: back to the welcome page, the record kept. */
    method TryAgain()
      modifies this
      ensures jobs == old(jobs) && currentJobId == None
    {
      currentJobId := None;
    }
  }

  /**
   * A job created from the form and then processed by the main page ends in a
   * terminal, well-formed record: `completed` with a result path, or `failed`
   * with an error, never both.
   */
  lemma SubmittedJobTerminates(topic: string, level: string, jobId: string, agentsReady: bool,
                               makeDir: Outcome, kickoff: Outcome, fs: FileSystem, started: string, now: string)
    ensures var r := CrewRecord(NewJob(topic, level, started).(status := Running), jobId, agentsReady, makeDir, kickoff, fs, now);
            r.status.IsTerminal() && WellFormed(r) && (r.resultPath.Some? <==> r.error.None?)
  {
  }

  /** Two different jobs of a session never write the same artifact file. */
  lemma SessionArtifactsDisjoint(a: string, b: string, name: string)
    requires IsShortUuid(a) && IsShortUuid(b) && a != b
    requires name in {QUERIES_FILE, VISUAL_FILE, TEXTUAL_FILE, SUMMARY_FILE}
    ensures ArtifactPath(a, name) != ArtifactPath(b, name)
  {
    ArtifactPathsDisjoint(a, name, b, name);
  }
}
