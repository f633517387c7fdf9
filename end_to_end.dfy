/**
 * The form and the server together: what the page ends up with when its
 * requests are answered by the handlers, and what a template that is
 * submitted unedited makes the server create.
 */
module EndToEnd {
  import opened Wrappers
  import opened Models
  import opened Kube
  import opened Http
  import Model
  import Handler
  import App

  /** The `namespace` query parameter the server reads from a URL the page builds. */
  function QueryOf(url: string): (q: Option<string>)
    ensures q.Some? ==> App.CronJobListUrl(q.value) == url
  {
    var prefix := App.ListPath + App.NamespaceQuery;
    if |prefix| < |url| && url[..|prefix|] == prefix then Some(url[|prefix|..]) else None
  }

  /** The server reads back the namespace the page put into the URL, and no query when none was picked. */
  lemma QueryOfListUrl(namespace: string)
    ensures QueryOf(App.CronJobListUrl(namespace)) == if namespace == "" then None else Some(namespace)
  {
    var url := App.CronJobListUrl(namespace);
    var prefix := App.ListPath + App.NamespaceQuery;
    if namespace == "" {
      assert |url| < |prefix|;
    }
  }

  /**
   * Loading the templates: the cluster is asked for the picked namespace
   * (the empty string, for all namespaces, when none is picked), and the
   * page gets one template per listed cronjob, the server's error message,
   * or the transport error when the handler panicked.
   */
  lemma ListingReachesPage(namespace: string, listed: Result<seq<CronJob>, string>, transportMessage: string)
    ensures var run := Handler.ListCronJobs(QueryOf(App.CronJobListUrl(namespace)), listed);
            var resp := Received(run.outcome, transportMessage);
            && run.calls == [ListCronJobsCall(namespace)]
            && (resp.Response? && IsOk(resp.status) ==> resp.body.TemplatesBody?)
            && (resp.Response? && !IsOk(resp.status) ==> resp.body.MessageBody?)
            && App.FetchJobsOutcome(resp) ==
                 (match listed
                  case Err(e) => Err(e)
                  case Ok(cjs) => if Handler.AllHavePodSpec(cjs) then Ok(Handler.TemplatesOf(cjs)) else Err(transportMessage))
  {
    QueryOfListUrl(namespace);
  }

  /**
   * Submitting a form: the page reports success, with the new job's name,
   * exactly when the cluster created the job; otherwise it shows the
   * cluster's error, or the transport error when the handler panicked.
   */
  lemma SubmitReachesPage(form: JobForm, suffix: string, got: Result<CronJob, string>,
                          created: Result<K8sJob, string>, transportMessage: string)
    requires Handler.IsRandomSuffix(suffix)
    ensures var run := Handler.CreateJob(App.FormToJob(form), suffix, got, created);
            var resp := Received(run.outcome, transportMessage);
            && (resp.Response? ==> resp.body.MessageBody?)
            && App.CreateJobOutcome(resp) ==
                 (match got
                  case Err(e) => Err(e)
                  case Ok(cj) =>
                    if !HasPodSpec(cj) then Err(transportMessage)
                    else if created.Ok? then Ok(Handler.CreatedMessage(Handler.CreateTmpJobName(form.cronjobData.name, suffix)))
                    else Err(created.error))
            && (App.SnackbarFor(App.CreateJobOutcome(resp)).severity == App.Success <==>
                  |run.calls| == 2 && created.Ok?)
  {
  }

  /**
   * Picking a template and submitting it unedited asks the cluster for the
   * cronjob it came from and, when the cluster hands back that cronjob,
   * creates a job whose pod runs the cronjob's own containers, in order,
   * with only empty lists and a missing image spelled out; listing the new
   * job's pod would show the very template that was picked.
   */
  lemma UneditedTemplateRecreatesCronJob(cj: CronJob, suffix: string, created: Result<K8sJob, string>)
    requires HasPodSpec(cj) && Handler.IsRandomSuffix(suffix)
    requires Handler.DistinctNames(PodSpecOf(cj).containers)
    ensures var t := Model.JobTemplateNew(cj);
            var run := Handler.CreateJob(App.FormToJob(App.JobToForm(Some(t))), suffix, Ok(cj), created);
            && |run.calls| == 2
            && run.calls[0] == GetCronJobCall(cj.metadata.namespace.GetOr(""), cj.metadata.name.GetOr(""))
            && run.calls[1].CreateJobCall?
            && var pod := run.calls[1].job.spec.value.template.spec.value;
               && pod.containers == Handler.NormalisedAll(PodSpecOf(cj).containers)
               && pod.rest == PodSpecOf(cj).rest
               && Model.ContainersNew(pod.containers) == t.spec.containers
  {
    var t := Model.JobTemplateNew(cj);
    App.SubmitUneditedTemplate(t);
    Handler.UneditedMergeRestores(PodSpecOf(cj).containers);
    var cs := Handler.NormalisedAll(PodSpecOf(cj).containers);
    assert Model.ContainersNew(cs) == t.spec.containers;
  }
}
