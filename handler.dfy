/**
 * The server's request handlers (src/handler.rs): listing the cronjobs as
 * templates, and creating a one-off job from a cronjob with the user's
 * container edits merged in. Each cluster call's result is a parameter; a
 * handler run records the calls it made and how it ended.
 */
module Handler {
  import opened Wrappers
  import opened Models
  import opened Kube
  import opened Http
  import Model

  // ---------------------------------------------------------------------------
  // Listing cronjobs

  /** Every listed cronjob can be projected without panicking. */
  predicate AllHavePodSpec(cjs: seq<CronJob>) {
    forall i :: 0 <= i < |cjs| ==> HasPodSpec(cjs[i])
  }

  /** The templates of a list of cronjobs, one for one and in order. */
  function TemplatesOf(cjs: seq<CronJob>): (r: seq<Job>)
    requires AllHavePodSpec(cjs)
    ensures |r| == |cjs|
    ensures forall i :: 0 <= i < |cjs| ==> r[i] == Model.JobTemplateNew(cjs[i])
  {
    if cjs == [] then [] else [Model.JobTemplateNew(cjs[0])] + TemplatesOf(cjs[1..])
  }

  /**
   * `list_cronjobs`: asks the cluster for the cronjobs of the requested
   * namespace (the empty string when the query has none) and replies 200 with
   * their templates, or 500 with the client's error message.
   */
  function ListCronJobs(namespace: Option<string>, listed: Result<seq<CronJob>, string>): (run: Run)
    ensures namespace.None? ==> run.calls == [ListCronJobsCall("")]
    ensures namespace.Some? ==> run.calls == [ListCronJobsCall(namespace.value)]
    ensures listed.Err? ==>
              run.outcome == Replied(Reply(INTERNAL_SERVER_ERROR, MessageBody(listed.error)))
    ensures listed.Ok? && !AllHavePodSpec(listed.value) ==> run.outcome == Panicked
    ensures listed.Ok? && AllHavePodSpec(listed.value) ==>
              && run.outcome.Replied?
              && run.outcome.reply.status == OK
              && run.outcome.reply.body.TemplatesBody?
              && |run.outcome.reply.body.templates| == |listed.value|
              && forall i :: 0 <= i < |listed.value| ==>
                   run.outcome.reply.body.templates[i] == Model.JobTemplateNew(listed.value[i])
  {
    var calls := [ListCronJobsCall(namespace.GetOr(""))];
    match listed
    case Err(e) => Run(calls, Replied(Reply(INTERNAL_SERVER_ERROR, MessageBody(e))))
    case Ok(cjs) =>
      if AllHavePodSpec(cjs) then Run(calls, Replied(Reply(OK, TemplatesBody(TemplatesOf(cjs)))))
      else Run(calls, Panicked)
  }

  // ---------------------------------------------------------------------------
  // The name of the new job

  /** Six alphanumerics drawn at random and lower-cased: only `a`-`z` and `0`-`9`. */
  predicate IsRandomSuffix(suffix: string) {
    |suffix| == 6 && forall i :: 0 <= i < |suffix| ==> 'a' <= suffix[i] <= 'z' || '0' <= suffix[i] <= '9'
  }

  const DefaultJobName := "job-hopper"

  /**
   * `create_tmp_job_name` with its random suffix as a parameter: the cronjob
   * name (or "job-hopper" when it is empty), a dash, and the suffix. The name
   * itself is not lower-cased. The base and the suffix can be read back.
   */
  function CreateTmpJobName(s: string, suffix: string): (r: string)
    requires IsRandomSuffix(suffix)
    ensures |r| == (if s == "" then |DefaultJobName| else |s|) + 7
    ensures r[..|r| - 7] == if s == "" then DefaultJobName else s
    ensures r[|r| - 7] == '-'
    ensures r[|r| - 6..] == suffix
  {
    if |s| == 0 then DefaultJobName + "-" + suffix else s + "-" + suffix
  }

  /** A cronjob literally named "job-hopper" gets the same kind of name as an unnamed one. */
  lemma TmpJobNameAmbiguous(suffix: string)
    requires IsRandomSuffix(suffix)
    ensures CreateTmpJobName("", suffix) == CreateTmpJobName(DefaultJobName, suffix)
  {
  }

  /** The confirmation sent back when the job was created. */
  function CreatedMessage(jobName: string): string {
    "job '" + jobName + "' was created"
  }

  // ---------------------------------------------------------------------------
  // Merging the user's containers into the cronjob's

  function K8sNames(cs: seq<K8sContainer>): (r: seq<string>)
    ensures |r| == |cs| && forall i :: 0 <= i < |cs| ==> r[i] == cs[i].name
  {
    seq(|cs|, i requires 0 <= i < |cs| => cs[i].name)
  }

  function PodNames(cs: seq<PodContainer>): (r: seq<string>)
    ensures |r| == |cs| && forall i :: 0 <= i < |cs| ==> r[i] == cs[i].name
  {
    seq(|cs|, i requires 0 <= i < |cs| => cs[i].name)
  }

  /** The index of the first container named `name`, or `|cs|` when there is none. */
  function FirstIndex(cs: seq<PodContainer>, name: string): (k: nat)
    ensures k <= |cs|
    ensures forall j :: 0 <= j < k ==> cs[j].name != name
    ensures k < |cs| ==> cs[k].name == name
  {
    if cs == [] then 0
    else if cs[0].name == name then 0
    else 1 + FirstIndex(cs[1..], name)
  }

  /** `compare.iter().find(|c| c.name == b.name)`: the first container with that name. */
  function FindByName(compare: seq<PodContainer>, name: string): (r: Option<PodContainer>)
    ensures r.None? <==> name !in PodNames(compare)
    ensures r.Some? ==> exists k :: 0 <= k < |compare| && compare[k] == r.value && compare[k].name == name
                                    && forall j :: 0 <= j < k ==> compare[j].name != name
  {
    var k := FirstIndex(compare, name);
    if k < |compare| then Some(compare[k]) else None
  }

  /** An empty list is sent to the cluster as an absent one. */
  function NoneIfEmpty<T>(s: seq<T>): Option<seq<T>> {
    if |s| == 0 then None else Some(s)
  }

  /**
   * A cronjob container overwritten with the user's edit of it: the image is
   * replaced, each list reads back as the edited one (an empty list is stored
   * as absent), and every other field of the cronjob's container is kept.
   */
  function Overwritten(b: K8sContainer, c: PodContainer): (r: K8sContainer)
    ensures r.name == b.name && r.rest == b.rest
    ensures r.image == Some(c.image)
    ensures r.command.GetOr([]) == c.command && r.command != Some([])
    ensures r.args.GetOr([]) == c.args && r.args != Some([])
    ensures r.env.GetOr([]) == c.env && r.env != Some([])
  {
    b.(image := Some(c.image),
       command := NoneIfEmpty(c.command),
       args := NoneIfEmpty(c.args),
       env := NoneIfEmpty(c.env))
  }

  /**
   * A container the cronjob does not have, built from the user's edit alone:
   * every optional field is present, even an empty list, and the server's
   * projection gives the edit back exactly.
   */
  function FromPodContainer(c: PodContainer): (r: K8sContainer)
    ensures Model.ContainerNew(r) == c
    ensures r.image.Some? && r.command.Some? && r.args.Some? && r.env.Some?
    ensures r.rest == NoExtra
  {
    K8sContainer(c.name, Some(c.image), Some(c.command), Some(c.args), Some(c.env), NoExtra)
  }

  /** The cronjob's containers that the user kept, overwritten, in the cronjob's order. */
  function MatchedPart(base: seq<K8sContainer>, compare: seq<PodContainer>): seq<K8sContainer> {
    if base == [] then []
    else
      var b := base[|base| - 1];
      MatchedPart(base[..|base| - 1], compare)
      + match FindByName(compare, b.name)
        case Some(c) => [Overwritten(b, c)]
        case None => []
  }

  /** The user's containers that the cronjob does not have, in the user's order. */
  function AddedPart(compare: seq<PodContainer>, base: seq<K8sContainer>): seq<K8sContainer> {
    if compare == [] then []
    else
      var c := compare[|compare| - 1];
      AddedPart(compare[..|compare| - 1], base)
      + if c.name !in K8sNames(base) then [FromPodContainer(c)] else []
  }

  /** What `merge_job_container` computes. */
  function Merge(base: seq<K8sContainer>, compare: seq<PodContainer>): seq<K8sContainer> {
    MatchedPart(base, compare) + AddedPart(compare, base)
  }

  /**
   * `merge_job_container`: collects the overwritten cronjob containers that
   * have a same-named edit, then extends the result with the edits the
   * cronjob has no container for.
   */
  method MergeJobContainer(base: seq<K8sContainer>, compare: seq<PodContainer>)
    returns (result: seq<K8sContainer>)
    ensures result == Merge(base, compare)
  {
    result := [];
    var i := 0;
    while i < |base|
      invariant 0 <= i <= |base|
      invariant result == MatchedPart(base[..i], compare)
    {
      var b := base[i];
      assert base[..i + 1][..i] == base[..i];
      var found := FindByName(compare, b.name);
      if found.Some? {
        result := result + [Overwritten(b, found.value)];
      }
      i := i + 1;
    }
    assert base[..i] == base;
    var added := [];
    var j := 0;
    while j < |compare|
      invariant 0 <= j <= |compare|
      invariant added == AddedPart(compare[..j], base)
    {
      var c := compare[j];
      assert compare[..j + 1][..j] == compare[..j];
      if forall k :: 0 <= k < |base| ==> base[k].name != c.name {
        added := added + [FromPodContainer(c)];
      }
      j := j + 1;
    }
    assert compare[..j] == compare;
    result := result + added;
  }

  // ---------------------------------------------------------------------------
  // What the merge keeps, drops and appends

  /** The names of `xs` that also occur in `pool`, in the order of `xs`. */
  function Keep(xs: seq<string>, pool: seq<string>): (r: seq<string>)
    ensures |r| <= |xs|
    ensures forall x :: x in r <==> x in xs && x in pool
  {
    if xs == [] then []
    else Keep(xs[..|xs| - 1], pool) + if xs[|xs| - 1] in pool then [xs[|xs| - 1]] else []
  }

  /** The names of `xs` that do not occur in `pool`, in the order of `xs`. */
  function Drop(xs: seq<string>, pool: seq<string>): (r: seq<string>)
    ensures |r| <= |xs|
    ensures forall x :: x in r <==> x in xs && x !in pool
  {
    if xs == [] then []
    else Drop(xs[..|xs| - 1], pool) + if xs[|xs| - 1] !in pool then [xs[|xs| - 1]] else []
  }

  lemma K8sNamesAppend(a: seq<K8sContainer>, b: seq<K8sContainer>)
    ensures K8sNames(a + b) == K8sNames(a) + K8sNames(b)
  {
  }

  lemma {:induction false} MatchedNames(base: seq<K8sContainer>, compare: seq<PodContainer>)
    ensures K8sNames(MatchedPart(base, compare)) == Keep(K8sNames(base), PodNames(compare))
  {
    if base != [] {
      var n := |base|;
      var init := base[..n - 1];
      var b := base[n - 1];
      var xs := K8sNames(base);
      var pool := PodNames(compare);
      MatchedNames(init, compare);
      assert xs[..n - 1] == K8sNames(init);
      assert xs[n - 1] == b.name;
      assert Keep(xs, pool) == Keep(K8sNames(init), pool) + if b.name in pool then [b.name] else [];
      var found := FindByName(compare, b.name);
      var last := match found
                  case Some(c) => [Overwritten(b, c)]
                  case None => [];
      assert MatchedPart(base, compare) == MatchedPart(init, compare) + last;
      assert K8sNames(last) == if b.name in pool then [b.name] else [];
      K8sNamesAppend(MatchedPart(init, compare), last);
    }
  }

  lemma {:induction false} AddedNames(compare: seq<PodContainer>, base: seq<K8sContainer>)
    ensures K8sNames(AddedPart(compare, base)) == Drop(PodNames(compare), K8sNames(base))
  {
    if compare != [] {
      var n := |compare|;
      AddedNames(compare[..n - 1], base);
      assert PodNames(compare)[..n - 1] == PodNames(compare[..n - 1]);
      var c := compare[n - 1];
      var last := if c.name !in K8sNames(base) then [FromPodContainer(c)] else [];
      K8sNamesAppend(AddedPart(compare[..n - 1], base), last);
    }
  }

  /**
   * The merged containers are named, in order, after the cronjob's containers
   * that the user kept, then the user's containers that the cronjob lacks; the
   * result has exactly that many containers.
   */
  lemma MergeNames(base: seq<K8sContainer>, compare: seq<PodContainer>)
    ensures K8sNames(Merge(base, compare))
            == Keep(K8sNames(base), PodNames(compare)) + Drop(PodNames(compare), K8sNames(base))
    ensures |Merge(base, compare)|
            == |Keep(K8sNames(base), PodNames(compare))| + |Drop(PodNames(compare), K8sNames(base))|
  {
    MatchedNames(base, compare);
    AddedNames(compare, base);
    K8sNamesAppend(MatchedPart(base, compare), AddedPart(compare, base));
  }

  /** The created job runs a container of a given name exactly when the user submitted one. */
  lemma MergeRunsSubmittedNames(base: seq<K8sContainer>, compare: seq<PodContainer>)
    ensures forall n :: n in K8sNames(Merge(base, compare)) <==> n in PodNames(compare)
  {
    MergeNames(base, compare);
  }

  lemma {:induction false} MatchedPartKeeps(base: seq<K8sContainer>, compare: seq<PodContainer>, j: nat)
    requires j < |base| && base[j].name in PodNames(compare)
    ensures Overwritten(base[j], FindByName(compare, base[j].name).value) in MatchedPart(base, compare)
  {
    var n := |base|;
    if j < n - 1 {
      assert base[..n - 1][j] == base[j];
      MatchedPartKeeps(base[..n - 1], compare, j);
    }
  }

  lemma {:induction false} AddedPartAppends(compare: seq<PodContainer>, base: seq<K8sContainer>, j: nat)
    requires j < |compare| && compare[j].name !in K8sNames(base)
    ensures FromPodContainer(compare[j]) in AddedPart(compare, base)
  {
    var n := |compare|;
    if j < n - 1 {
      assert compare[..n - 1][j] == compare[j];
      AddedPartAppends(compare[..n - 1], base, j);
    }
  }

  /** A cronjob container that the user kept is in the result, overwritten by the first same-named edit. */
  lemma MergeKeepsMatched(base: seq<K8sContainer>, compare: seq<PodContainer>, j: nat)
    requires j < |base| && base[j].name in PodNames(compare)
    ensures Overwritten(base[j], FindByName(compare, base[j].name).value) in Merge(base, compare)
  {
    MatchedPartKeeps(base, compare, j);
  }

  /** A container the cronjob lacks is appended, built from the user's edit, even when its lists are empty. */
  lemma MergeAppendsNew(base: seq<K8sContainer>, compare: seq<PodContainer>, j: nat)
    requires j < |compare| && compare[j].name !in K8sNames(base)
    ensures FromPodContainer(compare[j]) in Merge(base, compare)
  {
    AddedPartAppends(compare, base, j);
  }

  /** A kept cronjob container, overwritten by the first same-named edit. */
  ghost predicate IsKept(base: seq<K8sContainer>, compare: seq<PodContainer>, r: K8sContainer) {
    exists j :: 0 <= j < |base| && base[j].name in PodNames(compare)
                && r == Overwritten(base[j], FindByName(compare, base[j].name).value)
  }

  /** A container built from an edit the cronjob has no container for. */
  ghost predicate IsAppended(base: seq<K8sContainer>, compare: seq<PodContainer>, r: K8sContainer) {
    exists j :: 0 <= j < |compare| && compare[j].name !in K8sNames(base) && r == FromPodContainer(compare[j])
  }

  lemma {:induction false} MatchedPartOrigin(base: seq<K8sContainer>, compare: seq<PodContainer>, r: K8sContainer)
    requires r in MatchedPart(base, compare)
    ensures IsKept(base, compare, r)
  {
    var n := |base|;
    if r in MatchedPart(base[..n - 1], compare) {
      MatchedPartOrigin(base[..n - 1], compare, r);
      var j :| 0 <= j < n - 1 && base[..n - 1][j].name in PodNames(compare)
               && r == Overwritten(base[..n - 1][j], FindByName(compare, base[..n - 1][j].name).value);
      assert base[..n - 1][j] == base[j];
    } else {
      assert base[n - 1].name in PodNames(compare);
    }
  }

  lemma {:induction false} AddedPartOrigin(compare: seq<PodContainer>, base: seq<K8sContainer>, r: K8sContainer)
    requires r in AddedPart(compare, base)
    ensures IsAppended(base, compare, r)
  {
    var n := |compare|;
    if r in AddedPart(compare[..n - 1], base) {
      AddedPartOrigin(compare[..n - 1], base, r);
      var j :| 0 <= j < n - 1 && compare[..n - 1][j].name !in K8sNames(base)
               && r == FromPodContainer(compare[..n - 1][j]);
      assert compare[..n - 1][j] == compare[j];
    }
  }

  /** Nothing but kept-and-overwritten and appended containers appears in the result. */
  lemma MergeHasNothingElse(base: seq<K8sContainer>, compare: seq<PodContainer>, r: K8sContainer)
    requires r in Merge(base, compare)
    ensures IsKept(base, compare, r) || IsAppended(base, compare, r)
  {
    if r in MatchedPart(base, compare) {
      MatchedPartOrigin(base, compare, r);
    } else {
      AddedPartOrigin(compare, base, r);
    }
  }

  // ---------------------------------------------------------------------------
  // Submitting a template unedited

  /** No two containers share a name (Kubernetes requires it of a pod). */
  predicate DistinctNames(cs: seq<K8sContainer>) {
    forall i, j :: 0 <= i < j < |cs| ==> cs[i].name != cs[j].name
  }

  /**
   * A cronjob container after the user submitted its template unedited: an
   * absent image becomes the empty string and an empty list becomes absent;
   * the template it projects to is unchanged.
   */
  function Normalised(b: K8sContainer): (r: K8sContainer)
    ensures Model.ContainerNew(r) == Model.ContainerNew(b)
    ensures r.name == b.name && r.rest == b.rest
    ensures b.image.Some? ==> r.image == b.image
    ensures b.command != Some([]) ==> r.command == b.command
    ensures b.args != Some([]) ==> r.args == b.args
    ensures b.env != Some([]) ==> r.env == b.env
  {
    Overwritten(b, Model.ContainerNew(b))
  }

  function NormalisedAll(base: seq<K8sContainer>): (r: seq<K8sContainer>)
    ensures |r| == |base| && forall i :: 0 <= i < |base| ==> r[i] == Normalised(base[i])
  {
    seq(|base|, i requires 0 <= i < |base| => Normalised(base[i]))
  }

  lemma FindInProjection(base: seq<K8sContainer>, i: nat)
    requires DistinctNames(base) && i < |base|
    ensures FindByName(Model.ContainersNew(base), base[i].name) == Some(Model.ContainerNew(base[i]))
  {
    var cs := Model.ContainersNew(base);
    assert PodNames(cs)[i] == base[i].name;
    var k :| 0 <= k < |cs| && cs[k] == FindByName(cs, base[i].name).value && cs[k].name == base[i].name;
    assert base[k].name == base[i].name;
  }

  lemma NormalisedAllSnoc(base: seq<K8sContainer>)
    requires base != []
    ensures NormalisedAll(base) == NormalisedAll(base[..|base| - 1]) + [Normalised(base[|base| - 1])]
  {
  }

  /** The first edit named like `b` is exactly `b`'s template. */
  predicate FindsOwnTemplate(compare: seq<PodContainer>, b: K8sContainer) {
    FindByName(compare, b.name) == Some(Model.ContainerNew(b))
  }

  lemma {:induction false} MatchedPartUnedited(base: seq<K8sContainer>, compare: seq<PodContainer>)
    requires forall i :: 0 <= i < |base| ==> FindsOwnTemplate(compare, base[i])
    ensures MatchedPart(base, compare) == NormalisedAll(base)
  {
    if base != [] {
      var n := |base|;
      var init := base[..n - 1];
      assert forall i :: 0 <= i < |init| ==> init[i] == base[i];
      MatchedPartUnedited(init, compare);
      var b := base[n - 1];
      assert FindsOwnTemplate(compare, b);
      assert MatchedPart(base, compare) == MatchedPart(init, compare) + [Normalised(b)];
      NormalisedAllSnoc(base);
    }
  }

  lemma {:induction false} AddedPartEmpty(compare: seq<PodContainer>, base: seq<K8sContainer>)
    requires forall k :: 0 <= k < |compare| ==> compare[k].name in K8sNames(base)
    ensures AddedPart(compare, base) == []
  {
    if compare != [] {
      var n := |compare|;
      assert forall k :: 0 <= k < n - 1 ==> compare[..n - 1][k] == compare[k];
      AddedPartEmpty(compare[..n - 1], base);
    }
  }

  /**
   * Submitting the template of a cronjob without edits recreates the
   * cronjob's containers, in order, up to the normalisation of absent and
   * empty fields (when the container names are distinct, as Kubernetes
   * requires).
   */
  lemma {:induction false} UneditedMergeRestores(base: seq<K8sContainer>)
    requires DistinctNames(base)
    ensures Merge(base, Model.ContainersNew(base)) == NormalisedAll(base)
  {
    var cs := Model.ContainersNew(base);
    forall i | 0 <= i < |base|
      ensures FindsOwnTemplate(cs, base[i])
    {
      FindInProjection(base, i);
    }
    MatchedPartUnedited(base, cs);
    forall k | 0 <= k < |cs|
      ensures cs[k].name in K8sNames(base)
    {
      assert K8sNames(base)[k] == cs[k].name;
    }
    AddedPartEmpty(cs, base);
  }

  // ---------------------------------------------------------------------------
  // Creating the job

  /**
   * The job the server creates from a cronjob: the cronjob's job spec with
   * the pod's containers replaced by the merge, a fresh name derived from the
   * cronjob name, and the requested namespace. Nothing else of the cronjob's
   * job spec, pod template or pod spec changes.
   */
  function BuildJob(job: Job, cj: CronJob, suffix: string): (r: K8sJob)
    requires HasPodSpec(cj) && IsRandomSuffix(suffix)
    ensures r.metadata == ObjectMeta(Some(CreateTmpJobName(job.cronjobData.name, suffix)),
                                     Some(job.cronjobData.namespace), NoExtra)
    ensures r.spec.Some? && r.spec.value.rest == JobSpecOf(cj).rest
    ensures r.spec.value.template.rest == JobSpecOf(cj).template.rest
    ensures r.spec.value.template.spec == Some(PodSpecOf(cj).(containers := Merge(PodSpecOf(cj).containers, job.spec.containers)))
  {
    var jobSpec := JobSpecOf(cj);
    var podSpec := PodSpecOf(cj);
    var merged := podSpec.(containers := Merge(podSpec.containers, job.spec.containers));
    K8sJob(
      ObjectMeta(Some(CreateTmpJobName(job.cronjobData.name, suffix)), Some(job.cronjobData.namespace), NoExtra),
      Some(jobSpec.(template := jobSpec.template.(spec := Some(merged)))))
  }

  /** Every job the run asks the cluster to create goes to the namespace its metadata names. */
  predicate CreatesInOwnNamespace(run: Run) {
    forall k :: 0 <= k < |run.calls| && run.calls[k].CreateJobCall? ==>
      run.calls[k].job.metadata.namespace == Some(run.calls[k].namespace)
  }

  /**
   * `create_job`: fetches the named cronjob; when that fails it answers 400
   * with the client's message and creates nothing. Otherwise it asks the
   * cluster to create the built job in the requested namespace and answers
   * 201 with a confirmation naming the new job, or 400 with the client's
   * message.
   */
  function CreateJob(job: Job, suffix: string, got: Result<CronJob, string>, created: Result<K8sJob, string>): (run: Run)
    requires IsRandomSuffix(suffix)
    ensures 1 <= |run.calls| <= 2
    ensures run.calls[0] == GetCronJobCall(job.cronjobData.namespace, job.cronjobData.name)
    ensures CreatesInOwnNamespace(run)
    ensures got.Err? ==> run.calls == [run.calls[0]]
                         && run.outcome == Replied(Reply(BAD_REQUEST, MessageBody(got.error)))
    ensures got.Ok? && !HasPodSpec(got.value) ==> run.calls == [run.calls[0]] && run.outcome == Panicked
    ensures got.Ok? && HasPodSpec(got.value) ==>
              && |run.calls| == 2
              && run.calls[1] == CreateJobCall(job.cronjobData.namespace, BuildJob(job, got.value, suffix))
    ensures |run.calls| == 2 && created.Ok? ==>
              run.outcome == Replied(Reply(CREATED, MessageBody(CreatedMessage(CreateTmpJobName(job.cronjobData.name, suffix)))))
    ensures |run.calls| == 2 && created.Err? ==>
              run.outcome == Replied(Reply(BAD_REQUEST, MessageBody(created.error)))
  {
    var getCall := GetCronJobCall(job.cronjobData.namespace, job.cronjobData.name);
    match got
    case Err(e) => Run([getCall], Replied(Reply(BAD_REQUEST, MessageBody(e))))
    case Ok(cj) =>
      if !HasPodSpec(cj) then Run([getCall], Panicked)
      else
        var newJob := BuildJob(job, cj, suffix);
        var calls := [getCall, CreateJobCall(job.cronjobData.namespace, newJob)];
        match created
        case Ok(_) => Run(calls, Replied(Reply(CREATED, MessageBody(CreatedMessage(newJob.metadata.name.value)))))
        case Err(e) => Run(calls, Replied(Reply(BAD_REQUEST, MessageBody(e))))
  }
}
