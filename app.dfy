/**
 * The job form page (front/src/App.tsx): the conversions between the wire
 * model and the form's values, the options offered for picking a namespace
 * and a template, the URL and outcome of the two requests, and the page's
 * state with its event handlers.
 */
module App {
  import opened Wrappers
  import opened Models
  import opened Http
  import opened FormControl
  import CommandsForm
  import EnvForm

  // ---------------------------------------------------------------------------
  // Wire model <-> form values

  /** `stringsToStringForms`: wraps every string, in order. */
  function StringsToStringForms(xs: seq<string>): (r: seq<StringForm>)
    ensures |r| == |xs|
    ensures forall i :: 0 <= i < |xs| ==> r[i].value == xs[i]
  {
    if xs == [] then [] else [StringForm(xs[0])] + StringsToStringForms(xs[1..])
  }

  /** `stringsFormTostrings`: unwraps every element, in order. */
  function StringFormsToStrings(rows: seq<StringForm>): (r: seq<string>)
    ensures |r| == |rows|
    ensures forall i :: 0 <= i < |rows| ==> r[i] == rows[i].value
  {
    if rows == [] then [] else [rows[0].value] + StringFormsToStrings(rows[1..])
  }

  /** One container of `containersToContainerForms`: env is taken over as it is. */
  function ContainerToForm(c: PodContainer): ContainerForm {
    ContainerForm(c.name, c.image, StringsToStringForms(c.command), StringsToStringForms(c.args), c.env)
  }

  /** One container of `containerFormsToContainers`: env is taken over as it is. */
  function FormToContainer(c: ContainerForm): PodContainer {
    PodContainer(c.name, c.image, StringFormsToStrings(c.command), StringFormsToStrings(c.args), c.env)
  }

  /** `containersToContainerForms`: one form per container, in order. */
  function ContainersToContainerForms(cs: seq<PodContainer>): (r: seq<ContainerForm>)
    ensures |r| == |cs|
    ensures forall i :: 0 <= i < |cs| ==> r[i] == ContainerToForm(cs[i])
  {
    if cs == [] then [] else [ContainerToForm(cs[0])] + ContainersToContainerForms(cs[1..])
  }

  /** `containerFormsToContainers`: one container per form, in order. */
  function ContainerFormsToContainers(fs: seq<ContainerForm>): (r: seq<PodContainer>)
    ensures |r| == |fs|
    ensures forall i :: 0 <= i < |fs| ==> r[i] == FormToContainer(fs[i])
  {
    if fs == [] then [] else [FormToContainer(fs[0])] + ContainerFormsToContainers(fs[1..])
  }

  /** Wrapping and then unwrapping a string list gives it back. */
  lemma {:induction false} StringsRoundTrip(xs: seq<string>)
    ensures StringFormsToStrings(StringsToStringForms(xs)) == xs
  {
    if xs != [] {
      StringsRoundTrip(xs[1..]);
    }
  }

  /** Unwrapping and then wrapping the form rows gives them back. */
  lemma {:induction false} StringFormsRoundTrip(rows: seq<StringForm>)
    ensures StringsToStringForms(StringFormsToStrings(rows)) == rows
  {
    if rows != [] {
      StringFormsRoundTrip(rows[1..]);
    }
  }

  /** A container taken to the form and back is the same container, field for field. */
  lemma {:induction false} ContainersRoundTrip(cs: seq<PodContainer>)
    ensures ContainerFormsToContainers(ContainersToContainerForms(cs)) == cs
  {
    var r := ContainerFormsToContainers(ContainersToContainerForms(cs));
    forall i | 0 <= i < |cs|
      ensures r[i] == cs[i]
    {
      StringsRoundTrip(cs[i].command);
      StringsRoundTrip(cs[i].args);
    }
  }

  /** A container form taken to the wire and back is the same form: the two models carry the same data. */
  lemma {:induction false} ContainerFormsRoundTrip(fs: seq<ContainerForm>)
    ensures ContainersToContainerForms(ContainerFormsToContainers(fs)) == fs
  {
    var r := ContainersToContainerForms(ContainerFormsToContainers(fs));
    forall i | 0 <= i < |fs|
      ensures r[i] == fs[i]
    {
      StringFormsRoundTrip(fs[i].command);
      StringFormsRoundTrip(fs[i].args);
    }
  }

  /** The form values after picking template `t`, or after clearing the pick. */
  function JobToForm(t: Option<Job>): JobForm {
    match t
    case Some(job) => JobForm(job.cronjobData, JobSpecForm(ContainersToContainerForms(job.spec.containers)))
    case None => JobForm(CronJobData("", ""), JobSpecForm([]))
  }

  /** The request `onSubmit` builds from the form values. */
  function FormToJob(f: JobForm): Job {
    Job(f.cronjobData, JobSpec(ContainerFormsToContainers(f.spec.containers)))
  }

  /** Picking a template and submitting it unedited sends exactly that template. */
  lemma SubmitUneditedTemplate(t: Job)
    ensures FormToJob(JobToForm(Some(t))) == t
  {
    ContainersRoundTrip(t.spec.containers);
  }

  // ---------------------------------------------------------------------------
  // Validation

  /** The `required` rules of one container: name, image, every command and args value, every env name. */
  predicate ContainerFormValid(c: ContainerForm) {
    && c.name != ""
    && c.image != ""
    && (forall i :: 0 <= i < |c.command| ==> CommandsForm.RowValid(c.command[i]))
    && (forall i :: 0 <= i < |c.args| ==> CommandsForm.RowValid(c.args[i]))
    && (forall i :: 0 <= i < |c.env| ==> EnvForm.RowValid(c.env[i]))
  }

  /** What `handleSubmit` checks before calling `onSubmit`; the cronjob fields carry no rule. */
  predicate JobFormValid(f: JobForm) {
    forall i :: 0 <= i < |f.spec.containers| ==> ContainerFormValid(f.spec.containers[i])
  }

  /** `newContainerForm`: the blank container "Add container" appends; it cannot be submitted as it is. */
  function NewContainerForm(): (c: ContainerForm)
    ensures !ContainerFormValid(c)
    ensures FormToContainer(c) == PodContainer("", "", [], [], [])
  {
    ContainerForm("", "", [], [], [])
  }

  // ---------------------------------------------------------------------------
  // Options offered by the two pickers

  predicate NoDuplicates(xs: seq<string>) {
    forall i, j :: 0 <= i < j < |xs| ==> xs[i] != xs[j]
  }

  /** `Array.from(new Set(xs))`: the distinct elements in order of first occurrence. */
  function Distinct(xs: seq<string>): (r: seq<string>)
    ensures NoDuplicates(r)
    ensures forall x :: x in r <==> x in xs
  {
    if xs == [] then []
    else
      var d := Distinct(xs[..|xs| - 1]);
      if xs[|xs| - 1] in d then d else d + [xs[|xs| - 1]]
  }

  /** Where `x` first occurs in `xs`. */
  function FirstIndexOf(xs: seq<string>, x: string): (k: nat)
    requires x in xs
    ensures k < |xs| && xs[k] == x
    ensures forall j :: 0 <= j < k ==> xs[j] != x
  {
    if xs[0] == x then 0 else 1 + FirstIndexOf(xs[1..], x)
  }

  /** Appending an element does not move the first occurrence of anything already present. */
  lemma FirstIndexOfSnoc(xs: seq<string>, y: string, x: string)
    requires x in xs
    ensures FirstIndexOf(xs + [y], x) == FirstIndexOf(xs, x)
  {
    var k := FirstIndexOf(xs, x);
    assert (xs + [y])[k] == x;
  }

  /** `Distinct` lists the elements in the order in which they first occur, as a `Set` iterates them. */
  lemma {:induction false} DistinctKeepsFirstOccurrenceOrder(xs: seq<string>)
    ensures forall i, j :: 0 <= i < j < |Distinct(xs)| ==>
              FirstIndexOf(xs, Distinct(xs)[i]) < FirstIndexOf(xs, Distinct(xs)[j])
  {
    if xs != [] {
      var n := |xs|;
      var init := xs[..n - 1];
      var last := xs[n - 1];
      assert xs == init + [last];
      DistinctKeepsFirstOccurrenceOrder(init);
      var d := Distinct(init);
      forall y | y in d
        ensures FirstIndexOf(xs, y) == FirstIndexOf(init, y)
      {
        FirstIndexOfSnoc(init, last, y);
      }
      if last !in d {
        assert FirstIndexOf(xs, last) == n - 1;
        forall i | 0 <= i < |d|
          ensures FirstIndexOf(xs, d[i]) < n - 1
        {
          assert d[i] in d;
        }
      }
    }
  }

  function NamespacesOf(jobs: seq<Job>): (r: seq<string>)
    ensures |r| == |jobs| && forall i :: 0 <= i < |jobs| ==> r[i] == jobs[i].cronjobData.namespace
  {
    seq(|jobs|, i requires 0 <= i < |jobs| => jobs[i].cronjobData.namespace)
  }

  /** The namespace picker's options: each namespace of the loaded templates, once. */
  function NamespaceOptions(jobs: seq<Job>): (r: seq<string>)
    ensures NoDuplicates(r)
    ensures forall n :: n in r <==> exists i :: 0 <= i < |jobs| && jobs[i].cronjobData.namespace == n
  {
    var ns := NamespacesOf(jobs);
    var r := Distinct(ns);
    assert forall n :: n in ns <==> exists i :: 0 <= i < |jobs| && jobs[i].cronjobData.namespace == n by {
      forall n | n in ns ensures exists i :: 0 <= i < |jobs| && jobs[i].cronjobData.namespace == n {
        var i :| 0 <= i < |ns| && ns[i] == n;
      }
    }
    r
  }

  /** Removing duplicates from a run of one repeated value leaves that value once. */
  lemma {:induction false} DistinctOfRepeated(xs: seq<string>, n: string)
    requires xs != []
    requires forall i :: 0 <= i < |xs| ==> xs[i] == n
    ensures Distinct(xs) == [n]
  {
    if |xs| > 1 {
      DistinctOfRepeated(xs[..|xs| - 1], n);
    }
  }

  /**
   * Once the loaded templates all come from one namespace (as they do after
   * that namespace was picked), it is the only namespace offered.
   */
  lemma NamespaceOptionsNarrow(jobs: seq<Job>, n: string)
    requires jobs != []
    requires forall i :: 0 <= i < |jobs| ==> jobs[i].cronjobData.namespace == n
    ensures NamespaceOptions(jobs) == [n]
  {
    DistinctOfRepeated(NamespacesOf(jobs), n);
  }

  /** The template picker's options: every template when no namespace is picked, else those of that namespace. */
  function TemplateOptions(jobs: seq<Job>, namespace: string): (r: seq<Job>)
    ensures |r| <= |jobs|
    ensures namespace == "" ==> r == jobs
    ensures forall j :: j in r <==> j in jobs && (namespace == "" || j.cronjobData.namespace == namespace)
  {
    if jobs == [] then []
    else
      var last := jobs[|jobs| - 1];
      TemplateOptions(jobs[..|jobs| - 1], namespace)
      + if namespace == "" || last.cronjobData.namespace == namespace then [last] else []
  }

  /** Filtering keeps the templates' order: it commutes with concatenation. */
  lemma {:induction false} TemplateOptionsKeepOrder(a: seq<Job>, b: seq<Job>, namespace: string)
    ensures TemplateOptions(a + b, namespace) == TemplateOptions(a, namespace) + TemplateOptions(b, namespace)
  {
    if b != [] {
      var n := |b|;
      assert (a + b)[..|a + b| - 1] == a + b[..n - 1];
      TemplateOptionsKeepOrder(a, b[..n - 1], namespace);
    } else {
      assert a + b == a;
    }
  }

  // ---------------------------------------------------------------------------
  // Requests

  const ListPath := "/api/cronjob"
  const NamespaceQuery := "?namespace="

  /** The URL `fetchJobs` requests: the namespace goes into the query verbatim, an empty one is left out. */
  function CronJobListUrl(namespace: string): (url: string)
    ensures |ListPath| <= |url| && url[..|ListPath|] == ListPath
    ensures namespace == "" <==> url == ListPath
    ensures namespace != "" ==>
      && |url| == |ListPath + NamespaceQuery| + |namespace|
      && url[..|ListPath + NamespaceQuery|] == ListPath + NamespaceQuery
      && url[|ListPath + NamespaceQuery|..] == namespace
  {
    if namespace == "" then ListPath else ListPath + NamespaceQuery + namespace
  }

  /** Different namespaces are asked for with different URLs. */
  lemma CronJobListUrlInjective(a: string, b: string)
    requires CronJobListUrl(a) == CronJobListUrl(b)
    ensures a == b
  {
    if a != "" && b != "" {
      assert a == CronJobListUrl(a)[|ListPath + NamespaceQuery|..];
    }
  }

  /** `fetchJobs`: the templates on a 2xx response, else the body's message or the transport error's. */
  function FetchJobsOutcome(resp: Response): (r: Result<seq<Job>, string>)
    requires resp.Response? && IsOk(resp.status) ==> resp.body.TemplatesBody?
    requires resp.Response? && !IsOk(resp.status) ==> resp.body.MessageBody?
    ensures r.Ok? <==> resp.Response? && IsOk(resp.status)
    ensures r.Ok? ==> r.value == resp.body.templates
    ensures resp.TransportFailure? ==> r == Err(resp.message)
    ensures resp.Response? && !IsOk(resp.status) ==> r == Err(resp.body.message)
  {
    match resp
    case TransportFailure(m) => Err(m)
    case Response(status, body) => if IsOk(status) then Ok(body.templates) else Err(body.message)
  }

  /** `createJob`: the body's message, as a success on a 2xx response and as an error otherwise. */
  function CreateJobOutcome(resp: Response): (r: Result<string, string>)
    requires resp.Response? ==> resp.body.MessageBody?
    ensures r.Ok? <==> resp.Response? && IsOk(resp.status)
    ensures resp.Response? ==> r == (if IsOk(resp.status) then Ok(resp.body.message) else Err(resp.body.message))
    ensures resp.TransportFailure? ==> r == Err(resp.message)
  {
    match resp
    case TransportFailure(m) => Err(m)
    case Response(status, body) => if IsOk(status) then Ok(body.message) else Err(body.message)
  }

  // ---------------------------------------------------------------------------
  // The page's state

  datatype Severity = Success | Error

  datatype SnackbarMessage = SnackbarMessage(open: bool, severity: Severity, message: string)

  /** The notification shown once a request settles: open, and success or error with its message. */
  function SnackbarFor(outcome: Result<string, string>): (s: SnackbarMessage)
    ensures s.open
    ensures s.severity == Success <==> outcome.Ok?
    ensures s.message == match outcome case Ok(m) => m case Err(e) => e
  {
    match outcome
    case Ok(m) => SnackbarMessage(true, Success, m)
    case Err(e) => SnackbarMessage(true, Error, e)
  }

  /** The `App` component: its `useState` values and its form. */
  class Page {
    var namespace: string
    var jobs: seq<Job>
    var isSending: bool
    var snackbar: SnackbarMessage
    const form: JobFormControl

    ghost predicate Valid()
      reads this, form
    {
      form.Valid()
    }

    /** The initial state: no namespace, no templates, nothing in flight, the notification closed. */
    constructor ()
      ensures Valid() && fresh(form)
      ensures namespace == "" && jobs == [] && !isSending
      ensures snackbar == SnackbarMessage(false, Success, "")
      ensures form.Values() == JobToForm(None)
    {
      namespace := "";
      jobs := [];
      isSending := false;
      snackbar := SnackbarMessage(false, Success, "");
      form := new JobFormControl();
    }

    /** The namespace picker's onChange: a cleared pick is the empty namespace. */
    method SelectNamespace(picked: Option<string>)
      modifies this
      ensures namespace == picked.GetOr("")
      ensures jobs == old(jobs) && isSending == old(isSending) && snackbar == old(snackbar)
    {
      namespace := picked.GetOr("");
    }

    /** The settling of a template list request: store the templates, or show the error. */
    method ReceiveJobs(outcome: Result<seq<Job>, string>)
      modifies this
      ensures outcome.Ok? ==> jobs == outcome.value && snackbar == old(snackbar)
      ensures outcome.Err? ==> jobs == old(jobs) && snackbar == SnackbarMessage(true, Error, outcome.error)
      ensures namespace == old(namespace) && isSending == old(isSending)
    {
      match outcome
      case Ok(js) => jobs := js;
      case Err(e) => snackbar := SnackbarMessage(true, Error, e);
    }

    /**
     * The template picker's onChange: replaces the cronjob fields and the
     * whole container list; no row keeps its identity.
     */
    method SelectTemplate(picked: Option<Job>)
      requires Valid()
      modifies form
      ensures Valid()
      ensures form.Values() == JobToForm(picked)
      ensures form.nextKey >= old(form.nextKey)
      ensures KeysFrom(form.containers, old(form.nextKey))
      ensures forall i :: 0 <= i < |form.containers| ==> form.containers[i].value.KeysAtLeast(old(form.nextKey))
    {
      match picked
      case Some(t) =>
        form.SetCronjobData(t.cronjobData);
        form.SetContainers(ContainersToContainerForms(t.spec.containers));
      case None =>
        form.SetCronjobData(CronJobData("", ""));
        form.SetContainers([]);
    }

    /**
     * "Add container": appends a blank container under a key never issued
     * before; it keeps the form from being submitted until it is filled in.
     */
    method AddContainer()
      requires Valid()
      modifies form
      ensures Valid()
      ensures !JobFormValid(form.Values())
      ensures form.Values() == old(form.Values()).(spec := JobSpecForm(old(form.Values()).spec.containers + [NewContainerForm()]))
      ensures form.containers[..|form.containers| - 1] == old(form.containers)
      ensures form.containers[|form.containers| - 1] == Row(old(form.nextKey), KeyedContainer(NewContainerForm(), old(form.nextKey) + 1))
      ensures form.cronjobData == old(form.cronjobData) && form.nextKey > old(form.nextKey)
    {
      form.AppendContainer(NewContainerForm());
    }

    /** A container's delete button: removes that container only; the others keep their keys and no key is issued. */
    method RemoveContainer(index: nat)
      requires Valid() && index < |form.containers|
      modifies form
      ensures Valid()
      ensures form.Values() == old(form.Values()).(spec := JobSpecForm(RemovedAt(old(form.Values()).spec.containers, index)))
      ensures form.containers == RemovedAt(old(form.containers), index)
      ensures form.cronjobData == old(form.cronjobData) && form.nextKey == old(form.nextKey)
    {
      var _ := form.RemoveContainer(index);
    }

    /**
     * A submit: ignored while a request is in flight (the button is disabled)
     * or when a required field is empty; otherwise marks the request in
     * flight and returns the job to send.
     */
    method BeginSubmit() returns (request: Option<Job>)
      requires Valid()
      modifies this
      ensures Valid()
      ensures request.Some? <==> !old(isSending) && JobFormValid(form.Values())
      ensures request.Some? ==> request.value == FormToJob(form.Values()) && isSending
      ensures request.None? ==> isSending == old(isSending)
      ensures namespace == old(namespace) && jobs == old(jobs) && snackbar == old(snackbar)
    {
      if isSending || !JobFormValid(form.Values()) {
        request := None;
      } else {
        isSending := true;
        request := Some(FormToJob(form.Values()));
      }
    }

    /** The settling of the create request: show the outcome, and the request is no longer in flight. */
    method SettleSubmit(outcome: Result<string, string>)
      requires isSending
      modifies this
      ensures !isSending
      ensures snackbar == SnackbarFor(outcome)
      ensures namespace == old(namespace) && jobs == old(jobs)
    {
      snackbar := SnackbarFor(outcome);
      isSending := false;
    }

    /** `handleSnackbarClose`: closes the notification and keeps its severity and message. */
    method CloseSnackbar()
      modifies this
      ensures snackbar == old(snackbar).(open := false)
      ensures namespace == old(namespace) && jobs == old(jobs) && isSending == old(isSending)
    {
      snackbar := snackbar.(open := false);
    }
  }
}
