/**
 * The older server entry point (src/main.rs). Its `list_cronjobs`,
 * `create_tmp_job_name` and `merge_job_container` are the same code as in
 * src/handler.rs and are modelled by `Handler.ListCronJobs`,
 * `Handler.CreateTmpJobName` and `Handler.MergeJobContainer`. Its
 * `create_job` differs: it hands the cronjob's name to the cluster client as
 * the namespace to create the job in.
 */
module MainServer {
  import opened Wrappers
  import opened Models
  import opened Kube
  import opened Http
  import Handler

  /**
   * `create_job` as written in src/main.rs: the same steps and replies as
   * `Handler.CreateJob`, except that the create call goes to the namespace
   * named like the cronjob rather than to the requested namespace.
   */
  function CreateJob(job: Job, suffix: string, got: Result<CronJob, string>, created: Result<K8sJob, string>): (run: Run)
    requires Handler.IsRandomSuffix(suffix)
    ensures 1 <= |run.calls| <= 2
    ensures run.calls[0] == GetCronJobCall(job.cronjobData.namespace, job.cronjobData.name)
    ensures got.Err? ==> run.calls == [run.calls[0]]
                         && run.outcome == Replied(Reply(BAD_REQUEST, MessageBody(got.error)))
    ensures got.Ok? && !HasPodSpec(got.value) ==> run.calls == [run.calls[0]] && run.outcome == Panicked
    ensures got.Ok? && HasPodSpec(got.value) ==>
              && |run.calls| == 2
              && run.calls[1] == CreateJobCall(job.cronjobData.name, Handler.BuildJob(job, got.value, suffix))
    ensures |run.calls| == 2 && created.Ok? ==>
              run.outcome == Replied(Reply(CREATED, MessageBody(Handler.CreatedMessage(
                                             Handler.CreateTmpJobName(job.cronjobData.name, suffix)))))
    ensures |run.calls| == 2 && created.Err? ==>
              run.outcome == Replied(Reply(BAD_REQUEST, MessageBody(created.error)))
  {
    var getCall := GetCronJobCall(job.cronjobData.namespace, job.cronjobData.name);
    match got
    case Err(e) => Run([getCall], Replied(Reply(BAD_REQUEST, MessageBody(e))))
    case Ok(cj) =>
      if !HasPodSpec(cj) then Run([getCall], Panicked)
      else
        var newJob := Handler.BuildJob(job, cj, suffix);
        var calls := [getCall, CreateJobCall(job.cronjobData.name, newJob)];
        match created
        case Ok(_) => Run(calls, Replied(Reply(CREATED, MessageBody(Handler.CreatedMessage(newJob.metadata.name.value)))))
        case Err(e) => Run(calls, Replied(Reply(BAD_REQUEST, MessageBody(e))))
  }

  /**
   * The two versions agree on every reply and on the job they build; they
   * differ only in the namespace of the create call.
   */
  lemma SameAsHandlerButCreateNamespace(job: Job, suffix: string, got: Result<CronJob, string>, created: Result<K8sJob, string>)
    requires Handler.IsRandomSuffix(suffix)
    ensures var legacy := CreateJob(job, suffix, got, created);
            var current := Handler.CreateJob(job, suffix, got, created);
            && legacy.outcome == current.outcome
            && |legacy.calls| == |current.calls|
            && legacy.calls[0] == current.calls[0]
            && (|legacy.calls| == 2 ==>
                  legacy.calls[1] == current.calls[1].(namespace := job.cronjobData.name))
  {
  }

  /**
   * Whenever the cronjob's name differs from its namespace, the job built
   * for namespace N is sent to the cluster under a different namespace: the
   * create request contradicts its own metadata.
   */
  lemma CreateNamespaceMismatch(job: Job, suffix: string, cj: CronJob, created: Result<K8sJob, string>)
    requires Handler.IsRandomSuffix(suffix) && HasPodSpec(cj)
    requires job.cronjobData.name != job.cronjobData.namespace
    ensures !Handler.CreatesInOwnNamespace(CreateJob(job, suffix, Ok(cj), created))
  {
    var run := CreateJob(job, suffix, Ok(cj), created);
    assert run.calls[1].CreateJobCall?;
  }

  /** The cronjob "nightly" in namespace "batch": the job says "batch", the call says "nightly". */
  lemma NightlyInBatchGoesToWrongNamespace(cj: CronJob, created: Result<K8sJob, string>)
    requires HasPodSpec(cj)
    ensures var job := Job(CronJobData("nightly", "batch"), JobSpec([]));
            var run := CreateJob(job, "abc123", Ok(cj), created);
            && run.calls[1].namespace == "nightly"
            && run.calls[1].job.metadata.namespace == Some("batch")
  {
  }
}
