/**
 * The deterministic part of the Kubernetes client: the Job object that
 * `runCommand` submits, the metadata projection `addObjectMetadata` applies
 * to it in place, one poll of a Job's status conditions, the download status
 * map `getAllDownloads` builds, the age rule of `garbageCollect`, and the
 * set of status listeners `onUpdate` fills. The cluster itself is not here:
 * jobs the cluster reports are passed in as snapshots, and the clock as
 * integer milliseconds.
 */
module KubeApi {
  import opened Js

  // ---------------------------------------------------------------- constants

  const TtlKey := "video-recorder.spikedhand.com/ttl"
  const UrlKey := "video-recorder.spikedhand.com/url"
  const SourceTypeKey := "video-recorder.spikedhand.com/source-type"
  const TriggerKey := "video-recorder.spikedhand.com/trigger"
  const TypeKey := "video-recorder.spikedhand.com/type"

  /** `(60 * 60 * 100) + ''`: one hundred hours, in seconds, as a string. */
  const DefaultTtl := "360000"

  const ContainerImage := "handspiker2/youtube-dl"
  const PvcName := "recorded-video-pvc"
  const PriorityClassHigh := "realtime"
  const PriorityClassLow := "whenever-you-get-chance"
  const TaskTypeDownload := "download"
  const DefaultPrefix := "asynctask-"
  const DownloadPrefix := "download-"
  const DataRoot := "/data"

  /** `DEFAULT_RESOURCE_LIMITS` */
  const Requests: map<string, string> := map["cpu" := "300m", "memory" := "512Mi", "ephemeral-storage" := "1Gi"]
  const Limits: map<string, string> := map["cpu" := "2", "memory" := "2Gi"]

  // ---------------------------------------------------------------- metadata

  /**
   * The `parameters` of `addObjectMetadata`. A field that is undefined or the
   * empty string is "": the code only ever asks whether a field is truthy.
   */
  datatype TaskParams = TaskParams(url: string, sourceType: string, trigger: string, taskType: string)

  /** `if (value) m[key] = value` */
  function CopyIfSet(m: map<string, string>, key: string, value: string): map<string, string>
  {
    if value != "" then m[key := value] else m
  }

  predicate HasTtl(annotations: map<string, string>) {
    TtlKey in annotations && annotations[TtlKey] != ""
  }

  /** The annotations `addObjectMetadata` leaves behind. */
  function Annotate(annotations: map<string, string>, parameters: Option<TaskParams>): (r: map<string, string>)
    // the TTL is always there afterwards, and one that was there is kept
    ensures HasTtl(r)
    ensures HasTtl(annotations) ==> r[TtlKey] == annotations[TtlKey]
    ensures !HasTtl(annotations) ==> r[TtlKey] == DefaultTtl
    // each task field is copied only when truthy, otherwise its annotation is as it was
    ensures parameters.Some? && parameters.value.url != "" ==> UrlKey in r && r[UrlKey] == parameters.value.url
    ensures parameters.Some? && parameters.value.sourceType != "" ==> SourceTypeKey in r && r[SourceTypeKey] == parameters.value.sourceType
    ensures parameters.Some? && parameters.value.trigger != "" ==> TriggerKey in r && r[TriggerKey] == parameters.value.trigger
    ensures parameters.Some? && parameters.value.taskType != "" ==> TypeKey in r && r[TypeKey] == parameters.value.taskType
    ensures (parameters.None? || parameters.value.url == "") ==> (UrlKey in r <==> UrlKey in annotations) && (UrlKey in r ==> r[UrlKey] == annotations[UrlKey])
    ensures (parameters.None? || parameters.value.sourceType == "") ==> (SourceTypeKey in r <==> SourceTypeKey in annotations) && (SourceTypeKey in r ==> r[SourceTypeKey] == annotations[SourceTypeKey])
    ensures (parameters.None? || parameters.value.trigger == "") ==> (TriggerKey in r <==> TriggerKey in annotations) && (TriggerKey in r ==> r[TriggerKey] == annotations[TriggerKey])
    ensures (parameters.None? || parameters.value.taskType == "") ==> (TypeKey in r <==> TypeKey in annotations) && (TypeKey in r ==> r[TypeKey] == annotations[TypeKey])
    // nothing else is touched
    ensures forall k :: k !in {TtlKey, UrlKey, SourceTypeKey, TriggerKey, TypeKey} ==>
              (k in r <==> k in annotations) && (k in r ==> r[k] == annotations[k])
  {
    var withTtl := if HasTtl(annotations) then annotations else annotations[TtlKey := DefaultTtl];
    match parameters
    case None => withTtl
    case Some(p) =>
      CopyIfSet(CopyIfSet(CopyIfSet(CopyIfSet(withTtl, UrlKey, p.url), SourceTypeKey, p.sourceType), TriggerKey, p.trigger), TypeKey, p.taskType)
  }

  /** The labels `addObjectMetadata` leaves behind: only the type label, and only from a truthy task type. */
  function Label(labels: map<string, string>, parameters: Option<TaskParams>): map<string, string>
  {
    if parameters.Some? && parameters.value.taskType != "" then labels[TypeKey := parameters.value.taskType] else labels
  }

  /** A Job's `metadata` while it is being built; `addObjectMetadata` changes it in place. */
  class ObjectMeta {
    var generateName: string
    var labels: map<string, string>
    var annotations: map<string, string>

    /** A missing `annotations` object is the empty map: the code replaces it by `{}` before any use. */
    constructor (generateName: string, labels: map<string, string>)
      ensures this.generateName == generateName && this.labels == labels && annotations == map[]
    {
      this.generateName := generateName;
      this.labels := labels;
      annotations := map[];
    }

    /** `addObjectMetadata(object, parameters)` */
    method AddObjectMetadata(parameters: Option<TaskParams>)
      modifies this
      ensures generateName == old(generateName)
      ensures annotations == Annotate(old(annotations), parameters)
      ensures labels == Label(old(labels), parameters)
    {
      if !(TtlKey in annotations && annotations[TtlKey] != "") {
        annotations := annotations[TtlKey := DefaultTtl];
      }
      if parameters.Some? {
        var p := parameters.value;
        if p.url != "" {
          annotations := annotations[UrlKey := p.url];
        }
        if p.sourceType != "" {
          annotations := annotations[SourceTypeKey := p.sourceType];
        }
        if p.trigger != "" {
          annotations := annotations[TriggerKey := p.trigger];
        }
        if p.taskType != "" {
          annotations := annotations[TypeKey := p.taskType];
        }
        if p.taskType != "" {
          labels := labels[TypeKey := p.taskType];
        }
      }
    }
  }

  /** Applying the projection a second time changes nothing. */
  lemma AnnotateIdempotent(annotations: map<string, string>, labels: map<string, string>, parameters: Option<TaskParams>)
    ensures Annotate(Annotate(annotations, parameters), parameters) == Annotate(annotations, parameters)
    ensures Label(Label(labels, parameters), parameters) == Label(labels, parameters)
  {
    var once := Annotate(annotations, parameters);
    var twice := Annotate(once, parameters);
    assert twice.Keys == once.Keys;
  }

  // ---------------------------------------------------------------- the Job object

  datatype Container = Container(
    name: string,
    image: string,
    requests: map<string, string>,
    limits: map<string, string>,
    imagePullPolicy: string,
    workingDir: string,
    command: seq<string>,
    args: seq<string>,
    volumeName: string,
    mountPath: string)

  datatype Job = Job(
    generateName: string,
    labels: map<string, string>,
    annotations: map<string, string>,
    completions: nat,
    parallelism: nat,
    backoffLimit: nat,
    restartPolicy: string,
    claimName: string,
    priorityClassName: Option<string>,
    containers: seq<Container>)

  /**
   * The Job object `runCommand(command, options, priority, workingDir, metadata, prefix)`
   * submits. `priority`, `workingDir` and `prefix` are "" when not given.
   */
  method BuildJob(command: string, options: seq<string>, priority: string, workingDir: string,
                  metadata: Option<TaskParams>, prefix: string) returns (job: Job)
    ensures job.generateName == if prefix != "" then prefix else DefaultPrefix
    ensures TypeKey in job.labels && job.labels.Keys == {TypeKey}
    ensures job.labels[TypeKey] == if metadata.Some? && metadata.value.taskType != "" then metadata.value.taskType else "task"
    ensures job.annotations == Annotate(map[], metadata) && job.annotations[TtlKey] == DefaultTtl
    ensures job.completions == 1 && job.parallelism == 1
    ensures job.backoffLimit == 5 && job.restartPolicy == "Never" && job.claimName == PvcName
    ensures job.priorityClassName.Some? <==> priority != ""
    ensures job.priorityClassName.Some? ==> job.priorityClassName.value == priority
    ensures |job.containers| == 1
    ensures job.containers[0].workingDir == DataRoot + "/" + workingDir
    ensures job.containers[0].command == [command] && job.containers[0].args == options
    ensures job.containers[0].image == ContainerImage && job.containers[0].mountPath == DataRoot
  {
    var meta := new ObjectMeta(if prefix != "" then prefix else DefaultPrefix, map[TypeKey := "task"]);
    var container := Container("task", ContainerImage, Requests, Limits, "IfNotPresent",
                               DataRoot + "/" + workingDir, [command], options, "workspace", DataRoot);
    var priorityClassName := None;
    if priority != "" {
      priorityClassName := Some(priority);
    }
    meta.AddObjectMetadata(metadata);
    job := Job(meta.generateName, meta.labels, meta.annotations, 1, 1, 5, "Never", PvcName,
               priorityClassName, [container]);
  }

  /**
   * `downloadVideo(url, source, trigger, ytOptions, outputDirectory, isLive)`:
   * the url is pushed onto the caller's option array (a fresh one when none
   * is given) and a download Job is built from it.
   */
  method DownloadVideo(url: string, source: string, trigger: string, ytOptions: StringArray?,
                       outputDirectory: string, isLive: bool) returns (job: Job)
    modifies ytOptions
    ensures ytOptions != null ==> ytOptions.items == old(ytOptions.items) + [url]
    ensures |job.containers| == 1
    ensures job.containers[0].args == (if ytOptions != null then old(ytOptions.items) else []) + [url]
    ensures job.containers[0].command == ["yt-dlp"]
    ensures job.containers[0].workingDir == DataRoot + "/" + outputDirectory
    ensures job.priorityClassName == Some(if isLive then PriorityClassHigh else PriorityClassLow)
    ensures job.generateName == DownloadPrefix
    ensures job.labels == map[TypeKey := TaskTypeDownload]
    ensures job.annotations == Annotate(map[], Some(TaskParams(url, source, trigger, TaskTypeDownload)))
  {
    var options := ytOptions;
    if options == null {
      options := new StringArray([]);
    }
    options.Push([url]);
    var metadata := TaskParams(url, source, trigger, TaskTypeDownload);
    job := BuildJob("yt-dlp", options.items, if isLive then PriorityClassHigh else PriorityClassLow,
                    outputDirectory, Some(metadata), DownloadPrefix);
  }

  /** The Job `getVideoMetadata(url)` runs: `yt-dlp -q --no-warnings -J <url>`, a plain task. */
  method VideoMetadataJob(url: string) returns (job: Job)
    ensures |job.containers| == 1
    ensures job.containers[0].command == ["yt-dlp"] && job.containers[0].args == ["-q", "--no-warnings", "-J", url]
    ensures job.generateName == DefaultPrefix && job.labels == map[TypeKey := "task"]
    ensures job.priorityClassName == None && job.containers[0].workingDir == DataRoot + "/"
  {
    job := BuildJob("yt-dlp", ["-q", "--no-warnings", "-J", url], "", "", None, "");
  }

  /** The Job `createDirectory(directory)` runs: `mkdir -p <directory>` under the data root. */
  method CreateDirectoryJob(directory: string) returns (job: Job)
    ensures |job.containers| == 1
    ensures job.containers[0].command == ["mkdir"] && job.containers[0].args == ["-p", directory]
    ensures job.generateName == DefaultPrefix && job.labels == map[TypeKey := "task"]
    ensures job.priorityClassName == None
  {
    job := BuildJob("mkdir", ["-p", directory], "", "", None, "");
  }

  // ---------------------------------------------------------------- one status poll

  /** How the caller's promise is settled by a terminal condition. */
  datatype Verdict = Resolve | Reject

  predicate IsTerminal(conditionType: string) {
    conditionType == "Failed" || conditionType == "Complete"
  }

  /** `(conditionType === 'Complete' ? resolve : reject)` for a terminal entry. */
  function VerdictOf(conditionType: string): Verdict
  {
    if conditionType == "Complete" then Resolve else Reject
  }

  /**
   * The verdicts one poll fires, one per terminal entry, in the order the
   * conditions are listed: the loop has no `break`, so every terminal entry
   * fetches the logs, deletes the Job and settles the promise.
   */
  function Verdicts(conditions: seq<string>): (r: seq<Verdict>)
    ensures |r| <= |conditions|
    ensures r == [] <==> forall i :: 0 <= i < |conditions| ==> !IsTerminal(conditions[i])
  {
    if conditions == [] then []
    else
      var last := conditions[|conditions| - 1];
      var earlier := Verdicts(conditions[..|conditions| - 1]);
      assert forall i :: 0 <= i < |conditions| - 1 ==> conditions[..|conditions| - 1][i] == conditions[i];
      if IsTerminal(last) then earlier + [VerdictOf(last)] else earlier
  }

  /**
   * One poll of `readNamespacedJobStatus`: scan the condition list
   * (undefined conditions are the empty list) and return the verdicts fired.
   */
  method ScanConditions(conditions: seq<string>) returns (fired: seq<Verdict>)
    ensures fired == Verdicts(conditions)
  {
    fired := [];
    for i := 0 to |conditions|
      invariant fired == Verdicts(conditions[..i])
    {
      assert conditions[..i + 1][..i] == conditions[..i];
      var conditionType := conditions[i];
      if conditionType == "Failed" || conditionType == "Complete" {
        fired := fired + [if conditionType == "Complete" then Resolve else Reject];
      }
    }
    assert conditions[..|conditions|] == conditions;
  }

  /** The positions of the terminal entries, in increasing order, each exactly once. */
  function TerminalIndices(conditions: seq<string>): (ix: seq<nat>)
    ensures forall k :: 0 <= k < |ix| ==> ix[k] < |conditions| && IsTerminal(conditions[ix[k]])
    ensures forall k, l :: 0 <= k < l < |ix| ==> ix[k] < ix[l]
    ensures forall i :: 0 <= i < |conditions| && IsTerminal(conditions[i]) ==> i in ix
  {
    if conditions == [] then []
    else
      var n := |conditions| - 1;
      var earlier := TerminalIndices(conditions[..n]);
      assert forall i :: 0 <= i < n ==> conditions[..n][i] == conditions[i];
      if IsTerminal(conditions[n]) then earlier + [n] else earlier
  }

  /**
   * Verdict k belongs to the k-th terminal entry: there is one verdict per
   * terminal entry, in list order, `Resolve` for `Complete` and `Reject`
   * for `Failed`.
   */
  lemma {:induction false} VerdictsMatchConditions(conditions: seq<string>)
    ensures |Verdicts(conditions)| == |TerminalIndices(conditions)|
    ensures forall k :: 0 <= k < |Verdicts(conditions)| ==>
              Verdicts(conditions)[k] == VerdictOf(conditions[TerminalIndices(conditions)[k]])
  {
    if conditions != [] {
      var n := |conditions| - 1;
      var init := conditions[..n];
      VerdictsMatchConditions(init);
      var v, ix := Verdicts(conditions), TerminalIndices(conditions);
      var earlier, earlierIx := Verdicts(init), TerminalIndices(init);
      if IsTerminal(conditions[n]) {
        assert v == earlier + [VerdictOf(conditions[n])] && ix == earlierIx + [n];
      } else {
        assert v == earlier && ix == earlierIx;
      }
      forall k | 0 <= k < |v|
        ensures v[k] == VerdictOf(conditions[ix[k]])
      {
        if k < |earlier| {
          assert v[k] == earlier[k] && ix[k] == earlierIx[k];
          assert conditions[earlierIx[k]] == init[earlierIx[k]];
        }
      }
    }
  }

  /**
   * With log fetches finishing in the order they started, the promise is
   * settled by the first terminal entry of the poll: resolved with the logs
   * when it is `Complete`, rejected with them when it is `Failed`.
   */
  lemma FirstTerminalSettles(conditions: seq<string>, output: string, i: nat)
    requires i < |conditions| && IsTerminal(conditions[i])
    requires forall j :: 0 <= j < i ==> !IsTerminal(conditions[j])
    ensures Settle(Verdicts(conditions), output)
            == if conditions[i] == "Complete" then Resolved(output) else Rejected(output)
  {
    VerdictsMatchConditions(conditions);
    var ix := TerminalIndices(conditions);
    assert i in ix;
    assert IsTerminal(conditions[ix[0]]);
  }

  /** The outcome the caller's promise is settled with after a poll, given the log text fetched. */
  datatype Settlement = Pending | Resolved(output: string) | Rejected(reason: string)

  /**
   * A promise settles once, with the first verdict whose log fetch finishes.
   * When the log fetches finish in the order they were started, that is the
   * first verdict of the poll.
   */
  function Settle(fired: seq<Verdict>, output: string): (s: Settlement)
    ensures fired == [] <==> s == Pending
    ensures fired != [] && fired[0] == Resolve ==> s == Resolved(output)
    ensures fired != [] && fired[0] == Reject ==> s == Rejected(output)
  {
    if fired == [] then Pending
    else if fired[0] == Resolve then Resolved(output) else Rejected(output)
  }

  /** A poll that sees only `Complete` among its terminal entries resolves with the logs; one that sees only `Failed` rejects with them. */
  lemma {:induction false} UniformConditionsSettle(conditions: seq<string>, output: string)
    requires exists i :: 0 <= i < |conditions| && IsTerminal(conditions[i])
    ensures (forall i :: 0 <= i < |conditions| ==> conditions[i] != "Failed") ==>
              forall k :: 0 <= k < |Verdicts(conditions)| ==> Verdicts(conditions)[k] == Resolve
    ensures (forall i :: 0 <= i < |conditions| ==> conditions[i] != "Complete") ==>
              Settle(Verdicts(conditions), output) == Rejected(output)
  {
    VerdictsMatchConditions(conditions);
    assert Verdicts(conditions) != [];
  }

  // ---------------------------------------------------------------- download status

  /** A Job as the cluster lists it. Undefined status counters are 0: `undefined > 0` is false. */
  datatype JobSnapshot = JobSnapshot(
    uid: string,
    name: string,
    labels: map<string, string>,
    annotations: map<string, string>,
    creationMs: int,
    active: int,
    succeeded: int,
    failed: int,
    images: seq<string>)

  datatype State = Running | Complete | Failed | Unknown

  /** The state `getAllDownloads` derives from the Job's counters. */
  function Classify(active: int, succeeded: int, failed: int): (s: State)
  {
    if active > 0 then Running
    else if succeeded > 0 then Complete
    else if failed > 0 then Failed
    else Unknown
  }

  /** Each state in terms of all three counters: active beats succeeded, which beats failed. */
  lemma ClassifyCases(active: int, succeeded: int, failed: int)
    ensures Classify(active, succeeded, failed) == Running <==> active > 0
    ensures Classify(active, succeeded, failed) == Complete <==> active <= 0 && succeeded > 0
    ensures Classify(active, succeeded, failed) == Failed <==> active <= 0 && succeeded <= 0 && failed > 0
    ensures Classify(active, succeeded, failed) == Unknown <==> active <= 0 && succeeded <= 0 && failed <= 0
  {
  }

  datatype StatusRecord = StatusRecord(
    id: string,
    state: State,
    image: Option<string>,
    created: int,
    name: string,
    source: Option<string>,
    trigger: Option<string>)

  predicate IsDownload(job: JobSnapshot) {
    TypeKey in job.labels && job.labels[TypeKey] == TaskTypeDownload
  }

  function Lookup(m: map<string, string>, key: string): Option<string>
  {
    if key in m then Some(m[key]) else None
  }

  /** The record `getAllDownloads` keeps for one Job; `created` is `Math.floor(ms / 1000)`. */
  function Record(job: JobSnapshot): (r: StatusRecord)
    ensures r.name == job.name && r.id == job.uid
    ensures r.state == Classify(job.active, job.succeeded, job.failed)
    ensures r.created * 1000 <= job.creationMs < r.created * 1000 + 1000
    ensures r.image.Some? <==> job.images != []
    ensures r.image.Some? ==> r.image.value == job.images[0]
    ensures r.source.Some? <==> SourceTypeKey in job.annotations
    ensures r.source.Some? ==> r.source.value == job.annotations[SourceTypeKey]
    ensures r.trigger.Some? <==> TriggerKey in job.annotations
    ensures r.trigger.Some? ==> r.trigger.value == job.annotations[TriggerKey]
  {
    StatusRecord(job.uid, Classify(job.active, job.succeeded, job.failed),
                 if |job.images| > 0 then Some(job.images[0]) else None,
                 job.creationMs / 1000, job.name,
                 Lookup(job.annotations, SourceTypeKey), Lookup(job.annotations, TriggerKey))
  }

  /** The map `getAllDownloads` returns for the listed Jobs, taken in list order. */
  function DownloadsOf(jobs: seq<JobSnapshot>): map<string, StatusRecord>
  {
    if jobs == [] then map[]
    else
      var last := jobs[|jobs| - 1];
      var earlier := DownloadsOf(jobs[..|jobs| - 1]);
      if IsDownload(last) then earlier[last.name := Record(last)] else earlier
  }

  /** `getAllDownloads()` over the Jobs the cluster listed. */
  method GetAllDownloads(jobs: seq<JobSnapshot>) returns (downloads: map<string, StatusRecord>)
    ensures downloads == DownloadsOf(jobs)
  {
    downloads := map[];
    for i := 0 to |jobs|
      invariant downloads == DownloadsOf(jobs[..i])
    {
      assert jobs[..i + 1][..i] == jobs[..i];
      var job := jobs[i];
      if !(TypeKey in job.labels && job.labels[TypeKey] == TaskTypeDownload) {
        continue;
      }
      var state := Unknown;
      if job.active > 0 {
        state := Running;
      } else if job.succeeded > 0 {
        state := Complete;
      } else if job.failed > 0 {
        state := Failed;
      }
      var data := StatusRecord(job.uid, state, if |job.images| > 0 then Some(job.images[0]) else None,
                               job.creationMs / 1000, job.name,
                               Lookup(job.annotations, SourceTypeKey), Lookup(job.annotations, TriggerKey));
      downloads := downloads[data.name := data];
    }
    assert jobs[..|jobs|] == jobs;
  }

  /**
   * A name is in the map exactly when some download Job has it, and it maps
   * to the record of the LAST such Job in the list.
   */
  lemma {:induction false} DownloadsOfLastWins(jobs: seq<JobSnapshot>, name: string)
    ensures name in DownloadsOf(jobs) <==> exists i :: 0 <= i < |jobs| && IsDownload(jobs[i]) && jobs[i].name == name
    ensures name in DownloadsOf(jobs) ==>
              exists i :: 0 <= i < |jobs| && IsDownload(jobs[i]) && jobs[i].name == name
                          && DownloadsOf(jobs)[name] == Record(jobs[i])
                          && forall j :: i < j < |jobs| ==> !(IsDownload(jobs[j]) && jobs[j].name == name)
  {
    if jobs != [] {
      var n := |jobs| - 1;
      var init := jobs[..n];
      DownloadsOfLastWins(init, name);
      assert forall i :: 0 <= i < n ==> init[i] == jobs[i];
      if !(IsDownload(jobs[n]) && jobs[n].name == name) {
        if name in DownloadsOf(jobs) {
          var i :| 0 <= i < |init| && IsDownload(init[i]) && init[i].name == name
                   && DownloadsOf(init)[name] == Record(init[i])
                   && forall j :: i < j < |init| ==> !(IsDownload(init[j]) && init[j].name == name);
          assert forall j :: i < j < |jobs| ==> !(IsDownload(jobs[j]) && jobs[j].name == name);
        }
      }
    }
  }

  // ---------------------------------------------------------------- garbage collection

  const DayMs := 24 * 60 * 60 * 1000

  /**
   * `Date.parse(creationTimestamp) < Date.now() / 1000 - 24 * 60 * 60` with
   * both clocks in integer milliseconds: the left side is in milliseconds,
   * the right in seconds. Multiplied through by 1000 it is exact.
   */
  predicate StaleAsWritten(creationMs: int, nowMs: int) {
    1000 * creationMs < nowMs - DayMs
  }

  /** What the comment above the check says: the Job is older than a day. */
  predicate OlderThanADay(creationMs: int, nowMs: int) {
    nowMs - creationMs > DayMs
  }

  /** The rule `garbageCollect` is written with, and the one it evidently means. */
  datatype AgeRule = AsWritten | Intended

  predicate Expired(rule: AgeRule, creationMs: int, nowMs: int) {
    match rule
    case AsWritten => StaleAsWritten(creationMs, nowMs)
    case Intended => OlderThanADay(creationMs, nowMs)
  }

  /** The names `garbageCollect` deletes, in list order. */
  function Doomed(jobs: seq<JobSnapshot>, nowMs: int, rule: AgeRule): seq<string>
  {
    if jobs == [] then []
    else
      var last := jobs[|jobs| - 1];
      Doomed(jobs[..|jobs| - 1], nowMs, rule) + (if Expired(rule, last.creationMs, nowMs) then [last.name] else [])
  }

  /** `garbageCollect()` over the listed Jobs: the names it asks the cluster to delete. */
  method GarbageCollect(jobs: seq<JobSnapshot>, nowMs: int, rule: AgeRule) returns (deleted: seq<string>)
    ensures deleted == Doomed(jobs, nowMs, rule)
  {
    deleted := [];
    for i := 0 to |jobs|
      invariant deleted == Doomed(jobs[..i], nowMs, rule)
    {
      assert jobs[..i + 1][..i] == jobs[..i];
      if Expired(rule, jobs[i].creationMs, nowMs) {
        deleted := deleted + [jobs[i].name];
      }
    }
    assert jobs[..|jobs|] == jobs;
  }

  /** A name is deleted exactly when some listed Job with that name is expired under the rule. */
  lemma {:induction false} DoomedExactly(jobs: seq<JobSnapshot>, nowMs: int, rule: AgeRule, name: string)
    ensures name in Doomed(jobs, nowMs, rule) <==>
              exists i :: 0 <= i < |jobs| && jobs[i].name == name && Expired(rule, jobs[i].creationMs, nowMs)
  {
    if jobs != [] {
      var n := |jobs| - 1;
      DoomedExactly(jobs[..n], nowMs, rule, name);
      assert forall i :: 0 <= i < n ==> jobs[..n][i] == jobs[i];
    }
  }

  /** With the corrected rule, garbage collection deletes exactly the Jobs more than a day old. */
  lemma IntendedDeletesDayOldJobs(jobs: seq<JobSnapshot>, nowMs: int, name: string)
    ensures name in Doomed(jobs, nowMs, Intended) <==>
              exists i :: 0 <= i < |jobs| && jobs[i].name == name && nowMs - jobs[i].creationMs > DayMs
  {
    DoomedExactly(jobs, nowMs, Intended, name);
  }

  /** As written, a Job is deleted only if its creation time in ms is below the current time in seconds. */
  lemma StaleAsWrittenNeedsEpochTimestamp(creationMs: int, nowMs: int)
    requires creationMs >= 0 && StaleAsWritten(creationMs, nowMs)
    ensures creationMs < nowMs / 1000
  {
  }

  /** As written, the rule deletes no more than the intended one for any Job created after 1970. */
  lemma AsWrittenWithinIntended(creationMs: int, nowMs: int)
    requires creationMs >= 0
    ensures StaleAsWritten(creationMs, nowMs) ==> OlderThanADay(creationMs, nowMs)
  {
  }

  /** A Job created two days before 14 Nov 2023 is not deleted as written, though it is older than a day. */
  lemma StaleAsWrittenKeepsTwoDayOldJob()
    ensures OlderThanADay(1_699_827_200_000, 1_700_000_000_000)
    ensures !StaleAsWritten(1_699_827_200_000, 1_700_000_000_000)
  {
  }

  // ---------------------------------------------------------------- status listeners

  /**
   * The module-level `callbacks` Set: listeners are known by an identity;
   * a JavaScript Set keeps insertion order and holds each member once.
   */
  class Listeners {
    var callbacks: seq<nat>

    ghost predicate Valid()
      reads this
    {
      forall i, j :: 0 <= i < j < |callbacks| ==> callbacks[i] != callbacks[j]
    }

    constructor ()
      ensures Valid() && callbacks == []
    {
      callbacks := [];
    }

    /** `onUpdate(callback)`: `callbacks.add(callback)` */
    method OnUpdate(callback: nat)
      requires Valid()
      modifies this
      ensures Valid()
      ensures callbacks == if callback in old(callbacks) then old(callbacks) else old(callbacks) + [callback]
    {
      if callback !in callbacks {
        callbacks := callbacks + [callback];
      }
    }

    /**
     * `statusUpdate()`: every listener, in registration order, receives the
     * same freshly built download map.
     */
    method StatusUpdate(jobs: seq<JobSnapshot>) returns (deliveries: seq<(nat, map<string, StatusRecord>)>)
      requires Valid()
      ensures |deliveries| == |callbacks|
      ensures forall i :: 0 <= i < |deliveries| ==> deliveries[i] == (callbacks[i], DownloadsOf(jobs))
      ensures forall i, j :: 0 <= i < j < |deliveries| ==> deliveries[i].0 != deliveries[j].0
    {
      var downloads := GetAllDownloads(jobs);
      deliveries := [];
      for i := 0 to |callbacks|
        invariant |deliveries| == i
        invariant forall k :: 0 <= k < i ==> deliveries[k] == (callbacks[k], downloads)
      {
        deliveries := deliveries + [(callbacks[i], downloads)];
      }
    }
  }
}
