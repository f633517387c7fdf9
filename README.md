# job-hopper, modelled in Dafny

job-hopper starts a one-off Kubernetes Job from an existing CronJob. It has
two parts: a web form (React, `front/src`) and a small HTTP server (Rust,
`src`). The form loads the CronJobs as *templates*. The user picks one, edits
its containers, and submits it. The server then fetches the CronJob again,
merges the edited containers into the CronJob's pod spec, and creates a Job
with a fresh name.

This project models:

- both parts' record types;
- the conversions between templates and form values;
- the form's field-array state, including row keys;
- the page's state and event handlers;
- the server's list and create handlers, with their container merge;
- the older server entry point in `src/main.rs`.

It then proves what the two parts promise each other.

Modules, one per source file or concern:

- `Wrappers`: `Option` and `Result`.
- `Models`: `front/src/models/index.ts`. Its `Job` and `PodContainer` are also
  the server's `JobTemplate` and `model::Container` (`src/model.rs`), which
  have the same JSON shape.
- `Kube`: the part of the Kubernetes objects the server touches. Fields it
  does not touch are an opaque `rest`.
- `Http`: statuses, reply bodies, and handler runs. A run is the cluster calls
  made plus the outcome, which is a reply or a panic. `Http` also covers what
  the browser's `fetch` hands back.
- `Model`: `src/model.rs`.
- `Handler`: `src/handler.rs`.
- `MainServer`: `src/main.rs`.
- `FormControl`: the state react-hook-form keeps for the job form. It is a
  class whose methods update the values and the keyed rows in place.
- `CommandsForm` and `EnvForm`: the two row editors under
  `front/src/components`.
- `App`: `front/src/App.tsx`. It holds the pure mappers, the options,
  requests and outcomes, and the class `Page` for the component's state.
- `EndToEnd`: the form and the server together.

The cluster client's results are parameters of the handlers. A handler run
records which calls it made, so "nothing was created" can be stated. The six
random characters of a new job name are a parameter too, constrained to what
the source can draw.

Two behaviours of the page are kept as written. The namespace picker
narrows to the loaded namespace once a namespace is chosen
(`App.NamespaceOptionsNarrow`). List responses are applied in whatever order
they settle.

## Model

| member | source | states |
|---|---|---|
| Model.ContainerNew | src/model.rs:57-67 | The template container keeps the name. Each optional field becomes its value when present, and `""` or `[]` when absent. |
| Model.ContainersNew | src/model.rs:39-51 | The pod's containers are projected one for one and in order. |
| Model.JobTemplateNew | src/model.rs:31-55 | A missing name or namespace becomes `""`. The containers are the pod spec's, projected one for one. Callers must supply all three nested specs; the source panics otherwise. |
| Model.ContainerNewForgetsAbsence | src/model.rs:61-64 | The projection cannot tell an absent image or list from an empty one. |
| Handler.TemplatesOf | src/handler.rs:27-30 | Gives one template per listed cronjob, in order, each being `JobTemplate::new` of it. |
| Handler.ListCronJobs | src/handler.rs:18-41 | Makes exactly one list call, for the query namespace or `""`. A client error gives 500 with its message. A cronjob without a pod spec gives a panic. Otherwise it replies 200 with the templates, one for one. |
| Handler.CreateTmpJobName | src/handler.rs:43-54 | The name is the cronjob name, or "job-hopper" when that is empty, then `-`, then the six-character suffix. Base and suffix can be read back by position. |
| Handler.TmpJobNameAmbiguous | src/handler.rs:50-53 | An unnamed cronjob and one named "job-hopper" get names of the same form. |
| Handler.FindByName | src/handler.rs:109-112 | Finds an edit exactly when the name occurs among the edits. What it finds is an edit of that name. |
| Handler.Overwritten | src/handler.rs:113-127 | A kept container keeps its name and every untouched field. Its image is the edit's image. Command, args and env are the edit's lists, and an empty list is stored as absent. |
| Handler.FromPodContainer | src/handler.rs:134-141 | An added container carries every field of the edit, all present, with defaults elsewhere. It projects back to the edit. |
| Handler.MergeJobContainer | src/handler.rs:105-145 | The two loops compute `Merge`: the kept cronjob containers in cronjob order, followed by the new edits in edit order. |
| Handler.MatchedNames | src/handler.rs:106-129 | The kept part's names are the cronjob's names that also occur among the edits, in cronjob order. |
| Handler.AddedNames | src/handler.rs:130-143 | The appended part's names are the edit names the cronjob lacks, in edit order. |
| Handler.MergeNames | src/handler.rs:105-145 | The merged names are the kept names followed by the new names. The length is the sum of both. |
| Handler.MergeRunsSubmittedNames | src/handler.rs:105-145 | A name is in the merge iff it is among the submitted containers. Cronjob containers the user deleted are dropped. |
| Handler.MatchedPartKeeps | src/handler.rs:106-129 | Every cronjob container with a same-named edit appears, overwritten by the first such edit, in the kept part. |
| Handler.AddedPartAppends | src/handler.rs:130-143 | Every edit whose name the cronjob lacks appears, as a new container, in the appended part. |
| Handler.MergeKeepsMatched | src/handler.rs:106-129 | Lifts `MatchedPartKeeps` to the whole merge. |
| Handler.MergeAppendsNew | src/handler.rs:130-143 | Lifts `AddedPartAppends` to the whole merge. |
| Handler.MatchedPartOrigin | src/handler.rs:106-129 | Each kept container is some cronjob container overwritten by the first edit of its name. |
| Handler.AddedPartOrigin | src/handler.rs:130-143 | Each appended container is built from an edit whose name the cronjob lacks. |
| Handler.MergeHasNothingElse | src/handler.rs:105-145 | Every merged container is either kept or appended. |
| Handler.Normalised | src/handler.rs:113-127 | Overwriting a container with its own template changes only an absent image and empty lists. Its projection is unchanged. |
| Handler.FindInProjection | src/handler.rs:109 | When names are distinct, looking up a cronjob container's name among its own templates finds its template. |
| Handler.MatchedPartUnedited | src/handler.rs:106-129 | When every container finds its own template, the kept part is the normalised cronjob containers. |
| Handler.AddedPartEmpty | src/handler.rs:130-143 | When every edit's name is a cronjob container's, nothing is appended. |
| Handler.UneditedMergeRestores | src/handler.rs:105-145 | Merging a pod's containers with their own templates gives back those containers, in order and normalised, when names are distinct. |
| Handler.BuildJob | src/handler.rs:73-87 | The new job is named by `create_tmp_job_name` and is in the requested namespace. Its job spec, pod template and pod spec equal the cronjob's, except that the containers are the merge. |
| Handler.CreateJob | src/handler.rs:56-103 | It first gets the cronjob by the requested namespace and name. A get error replies 400 and nothing is created. A missing spec panics. Otherwise one create call goes to the requested namespace with the built job, then 201 with "job '<name>' was created", or 400 with the client's message. Every create call goes to the namespace in the job's own metadata. |
| MainServer.CreateJob | src/main.rs:91-138 | The older `create_job` as written: the same steps and replies, but the create call is addressed to the cronjob's name. |
| MainServer.SameAsHandlerButCreateNamespace | src/main.rs:123-125 | The old and new handlers agree on every outcome and on the get call. Their create calls differ only in the namespace argument. |
| MainServer.CreateNamespaceMismatch | src/main.rs:114-125 | When the cronjob's name differs from its namespace, the old handler sends the job to a namespace other than the one in its metadata. |
| MainServer.NightlyInBatchGoesToWrongNamespace | src/main.rs:124 | Counterexample: cronjob "nightly" in "batch". The job says "batch"; the call is addressed to "nightly". |
| FormControl.JobFormControl.constructor | front/src/App.tsx:137-151 | The default values: empty cronjob data and no containers. |
| FormControl.JobFormControl.SetCronjobData | front/src/App.tsx:218-221 | Replaces the cronjob data. The containers and their keys are unchanged. |
| FormControl.JobFormControl.SetContainers | front/src/App.tsx:222-225 | Replaces the container list by the given forms. Every row, nested ones included, gets a key never issued before. The counter never goes back, and key freshness is kept. |
| FormControl.JobFormControl.AppendContainer | front/src/App.tsx:332 | Adds one container at the end with fresh keys. Earlier rows are untouched. |
| FormControl.JobFormControl.RemoveContainer | front/src/App.tsx:258 | Removes exactly the container at the index, if it exists. Later rows move down with their keys. An index past the end changes nothing. |
| FormControl.JobFormControl.SetContainerName | front/src/App.tsx:267-285 | Sets one container's name. Everything else, keys included, is unchanged. |
| FormControl.JobFormControl.SetContainerImage | front/src/App.tsx:289-302 | Sets one container's image. Everything else is unchanged. |
| FormControl.JobFormControl.AppendStringRow | front/src/components/CommandsForm.tsx:14 | Appends one command or args row with a fresh key, in one container only. |
| FormControl.JobFormControl.RemoveStringRow | front/src/components/CommandsForm.tsx:39 | Removes exactly the row at the index, if it exists. Other rows keep their keys. |
| FormControl.JobFormControl.SetStringValue | front/src/components/CommandsForm.tsx:24-36 | Sets one row's value. Its key and all other rows are unchanged. |
| FormControl.JobFormControl.AppendEnvRow | front/src/components/EnvForm.tsx:19-22 | Appends one env row with a fresh key, in one container only. |
| FormControl.JobFormControl.RemoveEnvRow | front/src/components/EnvForm.tsx:56 | Removes exactly the env row at the index, if it exists. |
| FormControl.JobFormControl.PutEnv | front/src/components/EnvForm.tsx:31-53 | Replaces one env row's value and keeps its key. Everything else is unchanged. |
| CommandsForm.Add | front/src/components/CommandsForm.tsx:48 | Appends `{value: ""}` to this container's list, keyed by the counter, which then advances by one. Every other row, in every container, keeps its value and key. The new row fails the required rule. |
| CommandsForm.Delete | front/src/components/CommandsForm.tsx:39 | Removes that row's value and key. Every other row keeps its value and key, in order, and the counter is unchanged, so the removed key is never issued again. |
| CommandsForm.Edit | front/src/components/CommandsForm.tsx:24-36 | Sets the value of that row only. Every key and the counter are unchanged. |
| EnvForm.Add | front/src/components/EnvForm.tsx:65 | Appends `{value: ''}` with no name, keyed by the counter, which then advances by one. Every other row keeps its value and key. It fails the name rule. |
| EnvForm.Delete | front/src/components/EnvForm.tsx:56 | Removes that env row and its key. Every other row keeps its value and key, in order, and the counter is unchanged. |
| EnvForm.EditName | front/src/components/EnvForm.tsx:31-41 | Sets that row's name. Its value and `value_from` are kept. Every key and the counter are unchanged. |
| EnvForm.EditValue | front/src/components/EnvForm.tsx:44-53 | Sets that row's value. Its name and `value_from` are kept. Every key and the counter are unchanged. |
| App.NewContainerForm | front/src/App.tsx:32-38 | The blank container maps to an empty container and cannot pass validation. |
| App.StringsToStringForms | front/src/App.tsx:40-41 | Wraps each string, in order. |
| App.StringFormsToStrings | front/src/App.tsx:43-44 | Unwraps each row, in order. |
| App.ContainersToContainerForms | front/src/App.tsx:46-55 | Gives one form per container, in order. |
| App.ContainerFormsToContainers | front/src/App.tsx:57-66 | Gives one container per form, in order. |
| App.StringsRoundTrip | front/src/App.tsx:40-44 | Wrapping then unwrapping is the identity. |
| App.StringFormsRoundTrip | front/src/App.tsx:40-44 | Unwrapping then wrapping is the identity. |
| App.ContainersRoundTrip | front/src/App.tsx:46-66 | Container to form and back is the identity. |
| App.ContainerFormsRoundTrip | front/src/App.tsx:46-66 | Form to container and back is the identity. |
| App.SubmitUneditedTemplate | front/src/App.tsx:153-160 | A picked template submitted unedited is sent as exactly that template. |
| App.Distinct | front/src/App.tsx:193-195 | Distinct elements: no duplicates, and the same members as the input. |
| App.DistinctKeepsFirstOccurrenceOrder | front/src/App.tsx:193-195 | The distinct elements come in the order of their first occurrence, as a `Set` iterates them. |
| App.NamespaceOptions | front/src/App.tsx:193-195 | Offers each namespace of the loaded templates exactly once, and no other. |
| App.DistinctOfRepeated | front/src/App.tsx:193-195 | One repeated value is offered once. |
| App.NamespaceOptionsNarrow | front/src/App.tsx:193-196 | When all loaded templates share a namespace, that namespace is the only option. |
| App.TemplateOptions | front/src/App.tsx:211-215 | With no namespace, every template is offered. Otherwise a template is offered iff it is loaded and in that namespace. Never more than loaded. |
| App.TemplateOptionsKeepOrder | front/src/App.tsx:211-215 | Filtering commutes with concatenation, so loaded order is kept. |
| App.CronJobListUrl | front/src/App.tsx:69-71 | The URL is the list path, plus a `?namespace=` query carrying the namespace verbatim exactly when it is non-empty. |
| App.CronJobListUrlInjective | front/src/App.tsx:69-71 | Different namespaces give different URLs. |
| App.FetchJobsOutcome | front/src/App.tsx:68-80 | Succeeds iff the status is 2xx, with the body's templates. Otherwise it fails with the body's message, or with the transport error. |
| App.CreateJobOutcome | front/src/App.tsx:82-97 | Succeeds iff the status is 2xx. The body's message is the success value or the error. A transport error is an error. |
| App.SnackbarFor | front/src/App.tsx:161-175 | The notification is open. It is success iff the request succeeded, and it carries that message. |
| App.Page.constructor | front/src/App.tsx:106-114 | No namespace and no templates. Not sending. The notification is closed with an empty success message. The form is empty. |
| App.Page.SelectNamespace | front/src/App.tsx:196 | A cleared pick becomes `""`. Nothing else changes. |
| App.Page.ReceiveJobs | front/src/App.tsx:123-135 | Stores the templates on success. Otherwise it opens an error notification with the message and keeps the templates. |
| App.Page.SelectTemplate | front/src/App.tsx:217-226 | The form's values become the template's. A cleared pick gives empty cronjob data and no containers. Every row gets a key never issued before, and the counter never goes back. |
| App.Page.AddContainer | front/src/App.tsx:332 | Appends the blank container under the counter's key, which was never issued before, and keeps the other rows. The form is then not submittable. |
| App.Page.RemoveContainer | front/src/App.tsx:258 | Removes that container only. Other rows keep their keys, and the counter is unchanged. |
| App.Page.BeginSubmit | front/src/App.tsx:153-160 | Sends a request iff none is in flight and the form passes its rules. The request is the form converted, and the page is then sending. |
| App.Page.SettleSubmit | front/src/App.tsx:161-178 | Shows the outcome's notification and clears the in-flight flag. |
| App.Page.CloseSnackbar | front/src/App.tsx:116-121 | Closes the notification and keeps its severity and message. |
| EndToEnd.QueryOf | src/handler.rs:160-163 | A namespace the server reads from the URL is one the page would put there. |
| EndToEnd.QueryOfListUrl | src/handler.rs:13-16 | The server reads back the picked namespace, and no query when none was picked. |
| EndToEnd.ListingReachesPage | front/src/App.tsx:68-80 | The cluster is asked for the picked namespace. The page gets the templates, the server's error, or the transport error. The reply bodies are of the shape the page expects. |
| EndToEnd.SubmitReachesPage | front/src/App.tsx:82-97 | The page reports success, with the new job's name, iff the cluster created the job. Otherwise it shows the cluster's error, or the transport error on a panic. |
| EndToEnd.UneditedTemplateRecreatesCronJob | src/handler.rs:56-103 | A template submitted unedited fetches its own cronjob. The created pod has that cronjob's containers, normalised, and projects back to the same template. |

## Left out

- The Kubernetes client (`src/k8s.rs` and the client in `src/main.rs`) is not part of this model. Each call's result is a parameter of the handler.
- Routing is left out: warp paths, static files, the 16 KiB body limit and `main` start-up. JSON encoding and decoding are left out too.
- The draw of six random alphanumerics is a parameter, constrained to lower-case letters and digits.
- The browser's `fetch` and `r.json()` are left out. A panicking handler is modelled as a transport failure carrying a given message.
- App.FetchJobsOutcome: requires the body to have the shape the status implies. A body that is not JSON, or has another shape, is not modelled.
- App.CreateJobOutcome: likewise requires a message body.
- App.Page.ReceiveJobs: the `useEffect` refetch on each namespace change is not modelled as a trigger. It is only the settling of one request. Stale responses that settle out of order are not told apart from current ones.
- The notification's 6000 ms auto-hide timer is left out. It ends in the same `CloseSnackbar`.
- The submit button's spinner styling is left out. Its `disabled` flag is modelled as `BeginSubmit` ignoring a submit while one is in flight.
- react-hook-form internals are left out. Row ids are a counter that only grows. Validation is the `App.JobFormValid` predicate over the values. Field-level error display is not modelled.
- JSX rendering is left out.
- The env row that "Add" appends has no `name` property at all. It is modelled as the empty name; both fail the `required` rule.
- `value_from` is opaque: no editor touches it, and it is carried as it is.
- `src/main.rs`: `list_cronjobs`, `create_tmp_job_name` and `merge_job_container` are the same code as in `src/handler.rs`. They are modelled once, by the `Handler` members.
- CommandsForm.Delete, CommandsForm.Edit, EnvForm.Delete, EnvForm.EditName and EnvForm.EditValue: they require the row index to be in range. Their buttons and fields exist only for rendered rows. The out-of-range case of `remove` is handled in `FormControl`.
- The URL query carries the namespace without percent-encoding, as the page does. Namespace names that need encoding are not modelled.

## Findings

| source | as written | input that shows it | evidently intended | confidence | as-written member | corrected member |
|---|---|---|---|---|---|---|
| src/main.rs:124 | The create call is addressed to the namespace `job.cronjob_data.name` | cronjob "nightly" in namespace "batch": the job's metadata says "batch", the call goes to "nightly" | address it to `job.cronjob_data.namespace`, as src/handler.rs:89 does | not executed; high | MainServer.NightlyInBatchGoesToWrongNamespace | Handler.CreateJob |
