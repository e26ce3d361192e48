# AI Learning Assistant — a Dafny model of its deterministic core

AI Learning Assistant takes a topic and a skill level and has a crew of LLM
agents look for learning resources. It ships two front ends: a Flask web
server with a browser client, and a Streamlit app. Both keep a map of job
records. A runner, started on another thread, is meant to move each record
from `starting` through `running` to `completed` or `failed`. While a job runs, the user can play a
memory-card game.

This project models the parts of that system that do not depend on the LLM,
the network or the screen. They are:

- **The job records** (`jobs.dfy`, module `Jobs`): statuses, the record's
  outcome fields, and the job output directory `./ai-agent-output/job_<id>`
  with its artifact files.
- **The Flask web server** (`flask_app.dfy`, `FlaskApp`):
  - The process-wide job map `active_jobs`, as class `Registry`.
  - `start_learning`, `run_learning_crew`, `job_status` and
    `download_report`.
  - The raw-response search tools.
- **The Streamlit job handling** (`streamlit_jobs.dfy`, `StreamlitJobs`):
  - The session's job map.
  - Job creation from the sidebar form.
  - The runner with its progress callback.
  - The main page's processing of the current job.
- **The search fan-out tools** of the Streamlit app (`search_tools.dfy`,
  `SearchTools`):
  - One search per site filter.
  - Hits flattened in filter order, then hit order.
  - Any exception turns the whole result into `[]`.
- **The two memory-card games.** Each is a class whose flag sequences are
  updated in place:
  - the Streamlit one (`streamlit_game.dfy`, `StreamlitGame`);
  - the browser one (`browser_game.dfy`, `BrowserGame`).

  Facts shared by both games (flag counting, boards dealt from symbol pairs)
  live in `cards.dfy` (`Cards`).
- **The pure helpers of the browser client** (`browser_client.dfy`,
  `BrowserClient`):
  - the form check;
  - `updateProgress`;
  - the decision taken on each status poll;
  - `formatTime`.
- **Shared text helpers** (`strings.dfy`, `Strings`):
  - Python's and JavaScript's notions of white space and trimming.
  - Decimal rendering and two-digit padding.
  - A reader for `m:ss` clocks.
- **Result types** are in `wrappers.dfy` (`Wrappers`).

How the model treats what it cannot run:

- **Effects become parameters.** The crew's `kickoff` and `os.makedirs`
  are `Outcome` values, and whether the agents were created is a `bool`. The file system is a map from
  existing paths to their state: text that reads as UTF-8, a file that opens but
  is not UTF-8 text, or a file that cannot be opened. The search client is a
  function from query text and `max_results` to a response, or `None` when
  the call raises.
- **Timestamps and the generated job id are parameters.**
- **Shuffling becomes a precondition.** A shuffled board is any sequence
  whose multiset is the symbols listed twice.
- **Timers become methods.** Each `setTimeout` or `setInterval` callback of
  the browser game is a method, called when it fires.

## Model

| member | source | states |
|---|---|---|
| Strings.IsPySpace | app.py:191 | the characters Python's `str.strip()` removes: the ASCII white space, the separators `\x1c`-`\x1f`, and the Unicode space characters; definition used by `Strings.Strip` |
| Strings.IsJsSpace | static/script.js:31 | the characters `String.prototype.trim()` removes: ECMAScript WhiteSpace and LineTerminator, including `\uFEFF`; definition used by `Strings.Strip` |
| Strings.Strip | app.py:191 | `str.strip()`/`String.prototype.trim()`: the result is a slice of the input with only white space before and after it, no longer than the input, is empty exactly when the input is all white space, and starts and ends with a non-space character |
| Strings.NatToString | static/script.js:383-385 | decimal rendering of a number: at least one digit, only digits, a leading `0` only for zero |
| Strings.TwoDigits | streamlit_app.py:418 | `{:02d}` / `padStart(2, '0')`: a number below 10 gets one leading zero and any other is its plain decimal; at least two digits, exactly two below 100, all digits, and it reads back as the number |
| Jobs.NewJob | app.py:201-207 | the record a submission creates is `starting` with progress `Preparing...` and no summary, well formed, and carries the given topic, level and start time |
| Jobs.Join | app.py:127 | `os.path.join` of two parts: an absolute second part wins; otherwise the parts are joined with one `/`, and a first part that is empty or already ends in `/` is followed by the second part directly |
| Jobs.JobDir | app.py:127 | the job directory is `./ai-agent-output/job_<id>` |
| Jobs.JobDirInjective | app.py:127 | distinct job ids have distinct directories |
| Jobs.ArtifactPathsDisjoint | app.py:127-158 | two jobs whose ids hold no `/` never share an artifact file, and one job's distinct artifact names are distinct files |
| Jobs.ArtifactPathShape | app.py:127 | for a job id without `/` and a relative file name, the artifact path is `./ai-agent-output/job_<id>/<name>`; the step `Jobs.ArtifactPathsDisjoint` builds on |
| FlaskApp.ValidateStart | app.py:190-195 | a topic that is blank after `strip()` is refused with 400 "Topic name is required"; otherwise the stripped topic is kept and a missing level becomes "intermediate" |
| FlaskApp.AfterRun | app.py:120-181 | after the runner the record is terminal: `completed` with result path `./ai-agent-output/job_<id>` (`Jobs.JobDir`), "Complete!" and a completion time exactly when both steps succeed; otherwise `failed` with the failing step's message, the progress text reached, and no result path added; a well-formed running record stays well formed |
| FlaskApp.Registry.constructor | app.py:117-118 | the job map starts empty |
| FlaskApp.Registry.StartLearning | app.py:188-214 | a blank topic gets 400 and leaves the map unchanged; otherwise the reply is `Resources`/`started` and a fresh `starting` record replaces whatever was filed under `Resources`, so `Resources` stays the map's only key |
| FlaskApp.Registry.RunLearningCrew | app.py:120-181 | the field-by-field updates of the runner leave the record equal to `AfterRun` of the old record and change no other key |
| FlaskApp.Registry.JobStatus | app.py:216-243 | 404 "Job not found" exactly for an unknown id; otherwise a copy of the record. The report is attached exactly when the record is completed with a result path and the file exists and reads as UTF-8 text. The queries are attached exactly when, in addition, reading the report did not raise and the queries file exists, reads as text and decodes |
| FlaskApp.Registry.DownloadReport | app.py:245-256 | 404 "Job not found or not completed" unless the job exists and is completed; for a completed job with a result path, 404 "Report file not found" when the report file does not exist, and otherwise the attachment `learning_report_<id>.md` exactly when the file opens, whether or not it is UTF-8 text; 500 `Internal Server Error` exactly when a completed record lacks its result path or its report file exists but cannot be opened |
| FlaskApp.Registry.ReportAvailability | app.py:216-256 | for a well-formed record a download fails with 500 only on a report file that exists but cannot be opened, and a report the status read attached can always be downloaded |
| FlaskApp.Registry.NotTextReportDownloads | app.py:229-254 | a completed job's report that opens but is not UTF-8 text is missing from the status read, which decodes it as text, yet the download sends it |
| FlaskApp.SharedIdRunsMixOutcomes | app.py:198-212 | since every submission shares the id `Resources`, a later failing run can act on a record an earlier run completed, leaving a `failed` record with both `result_path` and `error` |
| FlaskApp.RawResponses | app.py:49-56 | one search per filter in order; a result exactly when no call raises, and then one response per filter, each the response to that filter's query |
| FlaskApp.VisualSearchTool | app.py:46-56 | the three raw YouTube/Udemy/Coursera responses in order, or `[]` exactly when a call raised |
| FlaskApp.TextSearchTool | app.py:58-69 | the four raw Medium/arXiv/GitHub/Papers with Code responses in order, or `[]` exactly when a call raised |
| FlaskApp.GluedSiteOperator | app.py:50-52 | as written, the character right after the user's query is the `s` of `site:`, and the qualifier is `free` with no space |
| FlaskApp.GluedPythonQueries | app.py:50-51 | the query "python" is sent as "pythonsite:youtube.com" and "freepythonsite:udemy.com" |
| SearchTools.VisualQueries | streamlit_app.py:188-190 | the visual tool's three queries are `q + " site:youtube.com"`, `"free " + q + " site:udemy.com"` and `"free " + q + " site:coursera.org"` |
| SearchTools.TextQueries | streamlit_app.py:210-213 | the text tool's four queries are `q` followed by ` site:medium.com`, ` site:arxiv.org`, ` site:github.com` and ` site:paperswithcode.com` |
| SearchTools.SiteOperatorSeparated | streamlit_app.py:188-190 | every filter keeps the query as its own words: the qualifier, if any, is `free ` with a space, and a space separates the query from `site:` |
| SearchTools.ToHits | streamlit_app.py:193-194 | a response's hits convert exactly when each one does, one hit per raw hit, in order |
| SearchTools.Collect | streamlit_app.py:192-200 | the responses' hits are collected exactly when every response converts; then there are exactly as many hits as raw hits, so nothing is dropped or merged |
| SearchTools.SearchTool | streamlit_app.py:184-203 | a tool's result is `[]` unless every filter's response converts |
| SearchTools.AppendHits | streamlit_app.py:193-194 | the `for ... append` loop appends exactly the converted hits of a response to the list built so far, or reports the conversion failure |
| SearchTools.VisualSearchTool | streamlit_app.py:183-203 | the method with its three loops returns exactly the fan-out result over the visual filters |
| SearchTools.TextSearchTool | streamlit_app.py:205-228 | the method with its four loops returns exactly the fan-out result over the text filters |
| SearchTools.CollectAppend | streamlit_app.py:192-200 | collecting two runs of responses is collecting each run and concatenating |
| SearchTools.CollectSingle | streamlit_app.py:193-194 | collecting one response gives exactly its converted hits |
| SearchTools.VisualOrder | streamlit_app.py:187-200 | when every call succeeds, the visual result is the YouTube hits, then the Udemy hits, then the Coursera hits |
| SearchTools.TextOrder | streamlit_app.py:209-225 | when every call succeeds, the text result is the Medium, arXiv, GitHub and Papers with Code hits, in that order |
| SearchTools.DuplicatesKept | streamlit_app.py:192-200 | a hit returned by two filters appears twice: there is no deduplication |
| SearchTools.EmptyTransport | streamlit_app.py:187-200 | when every filter finds nothing, the result is empty rather than an error |
| StreamlitJobs.IsShortUuid | streamlit_app.py:554 | a generated job id: the first eight characters of a UUID4 string, all lower-case hexadecimal digits; definition assumed of the id parameter by `StreamlitJobs.Session.SubmitForm` and used by `StreamlitJobs.SessionArtifactsDisjoint` |
| StreamlitJobs.AcceptsSubmission | streamlit_app.py:552 | the form starts a job only when it was submitted with a non-empty topic and a chosen level; definition whose meaning `StreamlitJobs.Session.SubmitForm` states |
| StreamlitJobs.FailureMessage | streamlit_app.py:285-378 | the message the runner's `except` stores: "Agents not initialized properly" when the agents are missing, otherwise the message of the first failing step (directory creation, kickoff, report read); definition whose use `StreamlitJobs.CrewRecord` states |
| StreamlitJobs.CrewRecord | streamlit_app.py:285-378 | the runner's record is terminal. It is `completed` exactly when the agents exist, the directory was made, kickoff returned and the report, if present, reads as UTF-8 text. A completed record carries the job directory, the report text (empty when the file is missing) and the completion time. A failed record carries the first failure's message. A well-formed running record stays well formed |
| StreamlitJobs.CrewReports | streamlit_app.py:285-376 | the progress callback receives a prefix of the six milestones: none when the agents are missing, only 15 when `makedirs` raises, 15 to 90 when kickoff or the report read raises, and all six, ending at 100, exactly when the run completes |
| StreamlitJobs.CrewReportsIncrease | streamlit_app.py:294-376 | the percentages reported in one run strictly increase |
| StreamlitJobs.Session.constructor | streamlit_app.py:34-37 | a session starts with no jobs and no current job |
| StreamlitJobs.Session.SubmitForm | streamlit_app.py:552-565 | a submitted form with a non-empty topic and level files a `starting` record under the generated id and makes it current; any other submission changes nothing |
| StreamlitJobs.Session.RunLearningCrew | streamlit_app.py:285-378 | the step-by-step record updates end in `CrewRecord` of the old record, and the callback reports are `CrewReports` |
| StreamlitJobs.Session.ProcessCurrentJob | streamlit_app.py:571-597 | only a current job that is `starting` is set `running` and run; any other state leaves the map unchanged and reports nothing |
| StreamlitJobs.Session.TryAgain | streamlit_app.py:638-644 | "Try Again" clears the current job and keeps the records |
| StreamlitJobs.SubmittedJobTerminates | streamlit_app.py:552-597 | a job created from the form and then run ends terminal and well formed, with a result path exactly when it has no error |
| StreamlitJobs.SessionArtifactsDisjoint | streamlit_app.py:298 | two jobs of a session with different generated ids never write the same artifact file |
| StreamlitGame.DealtBoardHoldsPairs | streamlit_app.py:383-388 | whatever the shuffle did, the board has 16 cards, each of the eight emojis exactly twice, and nothing else |
| StreamlitGame.ElapsedClockRoundTrip | streamlit_app.py:412-418 | the `mm:ss` clock reads back as the elapsed minutes and seconds; the seconds always take two digits, and so do the minutes below 100 |
| StreamlitGame.ElapsedClock | streamlit_app.py:412-418 | the game clock `mm:ss`, both parts padded to two digits; definition whose properties `StreamlitGame.ElapsedClockRoundTrip` states |
| StreamlitGame.MemoryGame.constructor | streamlit_app.py:38-47 | the initial game state is not started, with an empty board, no start time and zero counters |
| StreamlitGame.MemoryGame.InitializeMemoryGame | streamlit_app.py:381-399 | a new game holds the shuffled board face down and unmatched, with zero counters, no selection, the game started at the given time, and the invariant established |
| StreamlitGame.MemoryGame.StopGame | streamlit_app.py:459-461 | the Reset button only stops showing the game; all other state is kept |
| StreamlitGame.MemoryGame.CheckForMatch | streamlit_app.py:490-514 | with two cards selected: equal symbols mark both matched and add one pair, unequal symbols turn both face down, and either way the selection is cleared; otherwise nothing changes; the invariant is kept |
| StreamlitGame.MemoryGame.HandleCardClick | streamlit_app.py:467-488 | a click on a face-up or matched card changes nothing. Otherwise the card turns up and is selected. A second selected card costs one move and resolves the pair at once. The invariant is kept |
| StreamlitGame.MemoryGame.CompleteIffAllMatched | streamlit_app.py:463-465 | at most eight pairs are found, and eight exactly when every card is matched |
| BrowserGame.DealtBoardHoldsPairs | static/script.js:250-251 | whatever order the random sort produced, the board has 16 cards, each symbol exactly twice, and nothing else |
| BrowserGame.PlayingFresh | static/script.js:245-251 | a freshly dealt board satisfies the game invariant |
| BrowserGame.PlayingAfterFlip | static/script.js:273-288 | turning up a face-down card while fewer than two are in the try keeps the invariant |
| BrowserGame.PlayingAfterMatch | static/script.js:294-297 | marking a matching try as a matched pair keeps the invariant |
| BrowserGame.PlayingAfterMismatch | static/script.js:303-308 | queueing a mismatched try to be hidden keeps the invariant |
| BrowserGame.PlayingAfterHide | static/script.js:304-307 | turning the oldest waiting pair face down keeps the invariant |
| BrowserGame.MemoryGame.constructor | static/script.js:15-22 | the page starts with no cards, zero counters and clock, unpaused, flipping allowed, no timer |
| BrowserGame.MemoryGame.ResetGameStats | static/script.js:234-243 | moves, pairs and time are zero, the try is empty, flipping is allowed and the game is unpaused; the cards are kept |
| BrowserGame.MemoryGame.CreateGameBoard | static/script.js:245-271 | the board is the shuffled deck of 16 cards, all face down and unmatched; callbacks of the old board no longer touch it |
| BrowserGame.MemoryGame.InitializeMemoryGame | static/script.js:227-232 | a new game: fresh board, counters reset, clock running, invariant established |
| BrowserGame.MemoryGame.FlipCard | static/script.js:273-288 | ignored while locked, paused, or on a card that is up or matched. Otherwise the card turns up and joins the try. The second card costs one move and locks flipping. The invariant is kept |
| BrowserGame.MemoryGame.CheckForMatch | static/script.js:290-312 | equal symbols mark both cards matched, add one pair, and the eighth pair stops the clock. Unequal cards are queued to be turned down. The try is cleared and flipping unlocked. The invariant is kept |
| BrowserGame.MemoryGame.HideMismatched | static/script.js:304-307 | the oldest mismatched pair turns face down; nothing else changes |
| BrowserGame.MemoryGame.PauseGame | static/script.js:344-345 | the pause button toggles the pause and changes nothing else |
| BrowserGame.MemoryGame.Tick | static/script.js:328-335 | the clock counts one second only while running and not paused |
| BrowserGame.MemoryGame.CompleteIffAllMatched | static/script.js:300-302 | at most eight pairs are matched, and eight exactly when every card is matched |
| BrowserClient.UpdateProgress | static/script.js:122-132 | `starting`, `running` and `completed` read 20, 60 and 100, each exactly for that status; any other status reads 40. The running text is the job's progress, or "Processing..." when it has none |
| BrowserClient.ProgressFollowsLifecycle | static/script.js:122-132 | along a job's life the bar only moves forward, and a failed job reads 40 |
| BrowserClient.ValidateForm | static/script.js:27-40 | the form submits exactly when the trimmed topic and the level are both non-empty, sending the trimmed topic; otherwise it shows "Please fill in all fields" |
| BrowserClient.SubmittedFormAccepted | static/script.js:31-39 | a topic the form lets through is accepted by the server's check with the chosen level, unless it holds a character that Python counts as white space and JavaScript does not |
| BrowserClient.TrimsDisagree | static/script.js:31 | the two trims differ: a lone U+001C passes the form but the server answers 400, and a lone U+FEFF is blank to the form but a topic to the server |
| BrowserClient.PollDecision | static/script.js:88-120 | polling stops with "Failed to check job status" on a failed request, shows the results on `completed`, and shows the job's error (or "Job failed") on `failed`. On any other status it updates the bar and keeps polling |
| BrowserClient.PollingFollowsRecord | static/script.js:101-111 | polling a record goes on exactly while the job is not terminal, and a failed job's own error is shown |
| BrowserClient.FormatTimeRoundTrip | static/script.js:382-386 | `formatTime` reads back as the minutes and seconds; the seconds take two digits and the minutes have no leading zero |
| BrowserClient.FormatTime | static/script.js:382-386 | `formatTime`: minutes without padding, a colon, seconds padded to two digits; definition whose properties `BrowserClient.FormatTimeRoundTrip` states and that `BrowserClient.ClocksAgree` compares with the Streamlit clock |
| BrowserClient.ClocksAgree | static/script.js:382-386 | the browser clock equals the Streamlit clock from ten minutes on; before that the Streamlit clock has one extra leading zero |

## Left out

- The CrewAI agents, tasks and LLM calls are out of scope. `crew.kickoff` is an `Outcome` parameter, and the files the crew writes are part of the file-system parameter.
- The Tavily HTTP client is out of scope. It is a function parameter; a call that raises is `None`.
- Threads are not modelled: `threading.Thread`, `ThreadPoolExecutor`, the daemon runner and the polling interval. Each runner and each poll is one sequential call.
- `StreamlitJobs.Session.RunLearningCrew` assumes that the runner's writes to `st.session_state.jobs` (streamlit_app.py:294, 364-369, 374-377) reach the session's job map. The runner is submitted to a `ThreadPoolExecutor` worker (streamlit_app.py:589-597), and the script does not attach its script-run context to that worker. Streamlit binds `st.session_state` to the script thread's context, so in the worker the first write most likely raises, and so does the handler's own write. The exception then stays inside a future that is never read, and the record stays `running` (set at streamlit_app.py:587); the page keeps showing the game and rerunning. This depends on library behaviour outside this code. `StreamlitJobs.Session.ProcessCurrentJob` and `StreamlitJobs.SubmittedJobTerminates` carry the same assumption: they describe the runner as written, run on the session's state.
- Timers are not modelled as time: `setTimeout`, `setInterval`, `time.sleep` and `st.rerun`. Each browser timer callback is a method called when it fires. The Streamlit game turns a mismatched pair down at once, as its code does after its half-second sleep.
- Wall-clock values are parameters: `datetime.now`, `time.time` and the elapsed seconds. `uuid.uuid4` is a parameter too, constrained to eight lower-case hexadecimal digits.
- Rendering is left out: Flask routing, `jsonify`, `send_file`, CORS, Streamlit widgets, DOM updates, markdown rendering, copy buttons, `showResults`, `showError`, `resetUI`, `hideMemoryGame`, `updateGameStats` and the completion messages.
- `startLearningProcess` in the browser client is left out. It sends the request and its UI side effects are not modelled; the request body's validation is `FlaskApp.ValidateStart`, and the client's polling is `BrowserClient.PollDecision`.
- The browser's `resetGame` and `setupGameControls` are not separate members. They clear the timer and call `initializeMemoryGame`, which is `BrowserGame.MemoryGame.InitializeMemoryGame`.
- The interval left running when a new browser game starts without `resetGame` is not modelled. `initializeMemoryGame` on a new search starts a second `setInterval` without clearing the first, so the clock can tick twice per second; the model has one timer flag.
- `updateProgress` reads its status table with `statusMap[job.status]`. A status that names an `Object.prototype` member (`constructor`, `toString`, ...) would find that member instead of falling back. The server only ever reports the four statuses, so `BrowserClient.UpdateProgress` treats every other string as the fallback.
- `FlaskApp.ValidateStart` takes the request body as an object with optional string fields, so it does not capture JSON values of other types (app.py:190-192). A `null` or non-string `topic_name` makes `.strip()` raise and the server answer 500. A `null` `learning_level` is stored as `None`. A body that is not a JSON object fails at `.get`. The browser client always sends both fields as strings (static/script.js:63-65).
- The `SuggestedSearchQueries` output schema (app.py:34-36, streamlit_app.py:171-173), which asks the crew for 1 to 10 queries, is not modelled. The bound is enforced inside the CrewAI task output, which is out of scope.
- `FlaskApp.Registry.RunLearningCrew` requires the job id to be in the map, as the source's first statement reads the record; the handler only ever starts it after filing the record.
- `StreamlitJobs.Session.RunLearningCrew` requires the job id to be in the map, for the same reason.
- `BrowserGame.MemoryGame.CheckForMatch` models a callback fired with fewer than two cards in the try as changing nothing. The page's callback raises a `TypeError` on the missing card before any change. The case is reachable: pressing reset within 600 ms of flipping a second card empties `flippedCards` (static/script.js:238, 362-366) before the pending `setTimeout` (static/script.js:286) fires.
- `StreamlitGame.MemoryGame.HandleCardClick` requires the state between clicks (at most one card selected). Under that invariant the source's "two already selected" guard cannot fire, because `check_for_match` always clears a full selection.
- `FlaskApp.Registry.JobStatus` models the query file's `json.load` as a decoding function parameter. Any read or decode failure is a missing value, as the handler's `except` swallows it.
- The report name that the Streamlit download button uses is rendering and is not modelled.

Where the behaviour of the code differs from what one might expect of the design, the model follows the code:

- A search tool fails as a whole: one filter's exception empties the whole result, not just that filter's hits.
- The Flask server does not check the level value, and files every submission under the constant id `Resources`.
- The Flask search tools return the raw responses without converting them.
- The Streamlit form checks the topic without trimming it, so a topic of spaces is accepted there.

## Findings

| source | as written | input that shows it | evidently intended | confidence | as-written member | corrected member |
|---|---|---|---|---|---|---|
| app.py:50-52, 62-65 | the query is glued to the `site:` operator, and `free` to the query, with no space | query "python" sends "pythonsite:youtube.com" and "freepythonsite:udemy.com" | a space on each side of the query, as in streamlit_app.py:188-190: "python site:youtube.com", "free python site:udemy.com" | high; not executed | FlaskApp.GluedPythonQueries | SearchTools.SiteOperatorSeparated |
