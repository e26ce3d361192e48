/**
 * The job record kept in the process-wide job map, the job-scoped output
 * directory and the artifact file names, shared by the web server and the
 * interactive front end.
 */
module Jobs {
  import opened Wrappers
  import opened Strings

  /** The `status` value of a job record. */
  datatype Status = Starting | Running | Completed | Failed {
    /** The string the record holds and the status endpoint reports. */
    function Name(): string {
      match this
      case Starting => "starting"
      case Running => "running"
      case Completed => "completed"
      case Failed => "failed"
    }

    predicate IsTerminal() {
      this == Completed || this == Failed
    }
  }

  /**
   * A job record. Keys that a record may lack are `Option`s: `result_path`
   * and `completed_at` appear on success, `error` on failure, and `summary`
   * only in the interactive front end's records.
   */
  datatype Job = Job(
    status: Status,
    progress: string,
    topic: string,
    level: string,
    startedAt: string,
    resultPath: Option<string>,
    completedAt: Option<string>,
    error: Option<string>,
    summary: Option<string>)

  /**
   * What a file path holds, for the paths that exist: a file that opens and
   * decodes as UTF-8 text, one that opens but whose bytes are not UTF-8 (a text
   * read raises, a byte read succeeds), or one that cannot be opened at all.
   */
  datatype FileState = Readable(content: string) | NotText(reason: string) | Unreadable(reason: string)

  /** The file system as the model sees it: the existing paths and what reading each yields. */
  type FileSystem = map<string, FileState>

  const OUTPUT_DIR := "./ai-agent-output"
  const QUERIES_FILE := "step_1_suggested_search_queries.json"
  const VISUAL_FILE := "step_2_visual_results.json"
  const TEXTUAL_FILE := "step_3_textual_results.json"
  const SUMMARY_FILE := "summary_report.md"

  /** The record a submission creates: `starting`, `Preparing...`, no outcome yet. */
  function NewJob(topic: string, level: string, now: string): (j: Job)
    ensures WellFormed(j) && j.status == Starting && j.progress == "Preparing..."
    ensures j.summary.None?
    ensures j.topic == topic && j.level == level && j.startedAt == now
  {
    Job(Starting, "Preparing...", topic, level, now, None, None, None, None)
  }

  /**
   * A record is well formed when its outcome fields agree with its status:
   * no outcome while `starting`/`running`, `result_path` and `completed_at`
   * but no `error` once `completed`, `error` but no `result_path` once `failed`.
   */
  ghost predicate WellFormed(j: Job) {
    && (!j.status.IsTerminal() ==> j.resultPath.None? && j.completedAt.None? && j.error.None?)
    && (j.status == Completed ==> j.resultPath.Some? && j.completedAt.Some? && j.error.None?)
    && (j.status == Failed ==> j.error.Some? && j.resultPath.None? && j.completedAt.None?)
  }

  /** POSIX `os.path.join(a, b)` for two components. */
  function Join(a: string, b: string): (r: string)
    ensures b != [] && b[0] == '/' ==> r == b
    ensures (b == [] || b[0] != '/') && a != [] && a[|a| - 1] != '/' ==> r == a + "/" + b
    ensures (b == [] || b[0] != '/') && (a == [] || a[|a| - 1] == '/') ==> r == a + b
  {
    if b != [] && b[0] == '/' then b
    else if a == [] || a[|a| - 1] == '/' then a + b
    else a + "/" + b
  }

  /** The job-scoped output directory `OUTPUT_DIR/job_<id>`. */
  function JobDir(jobId: string): (r: string)
    ensures r == OUTPUT_DIR + "/job_" + jobId
  {
    assert ("job_" + jobId)[0] == 'j';
    Join(OUTPUT_DIR, "job_" + jobId)
  }

  /** The path of the artifact `name` of job `jobId`. */
  function ArtifactPath(jobId: string, name: string): string {
    Join(JobDir(jobId), name)
  }

  /** Distinct job ids own distinct directories. */
  lemma JobDirInjective(a: string, b: string)
    ensures JobDir(a) == JobDir(b) ==> a == b
  {
    var p := OUTPUT_DIR + "/job_";
    if JobDir(a) == JobDir(b) {
      assert a == JobDir(a)[|p|..];
      assert b == JobDir(b)[|p|..];
    }
  }

  /** `x + "/" + f == y + "/" + g` with no slash in x or y splits the same way. */
  lemma SlashSplit(x: string, f: string, y: string, g: string)
    requires '/' !in x && '/' !in y
    requires x + "/" + f == y + "/" + g
    ensures x == y && f == g
  {
    var l := x + "/" + f;
    FirstIndexAfter(x, '/', f);
    FirstIndexAfter(y, '/', g);
    assert x == l[..|x|] && y == l[..|y|];
    assert f == l[|x| + 1..] && g == l[|y| + 1..];
  }

  /** The artifact `f` of a job whose id holds no `/` sits right under its directory. */
  lemma ArtifactPathShape(a: string, f: string)
    requires '/' !in a
    requires f != [] && f[0] != '/'
    ensures ArtifactPath(a, f) == OUTPUT_DIR + "/job_" + (a + "/" + f)
  {
    var p := OUTPUT_DIR + "/job_";
    var da := JobDir(a);
    assert da[|da| - 1] != '/' by {
      if a == [] { assert da[|da| - 1] == '_'; } else { assert da[|da| - 1] == a[|a| - 1]; assert a[|a| - 1] in a; }
    }
    assert ArtifactPath(a, f) == da + "/" + f;
    assert da == p + a;
  }

  /**
   * Two jobs whose ids contain no `/` never share an artifact path, and one
   * job's artifacts with distinct slash-free names are distinct files.
   */
  lemma ArtifactPathsDisjoint(a: string, f: string, b: string, g: string)
    requires '/' !in a && '/' !in b
    requires f != [] && f[0] != '/' && g != [] && g[0] != '/'
    ensures ArtifactPath(a, f) == ArtifactPath(b, g) ==> a == b && f == g
  {
    var p := OUTPUT_DIR + "/job_";
    if ArtifactPath(a, f) == ArtifactPath(b, g) {
      var l, r := ArtifactPath(a, f), ArtifactPath(b, g);
      ArtifactPathShape(a, f);
      ArtifactPathShape(b, g);
      assert l[|p|..] == a + "/" + f;
      assert r[|p|..] == b + "/" + g;
      SlashSplit(a, f, b, g);
    }
  }
}
