/**
 * The parts of the Kubernetes objects the server reads and writes, and the
 * calls it makes to the cluster. The cluster client itself is not modelled:
 * each call's result is a parameter of the handler that makes it.
 */
module Kube {
  import opened Wrappers
  import opened Models

  /** Fields of an object that the server never looks at, kept as an opaque map. */
  datatype Extra = Extra(fields: map<string, string>)

  /** The value of every untouched field after `..Default::default()`. */
  const NoExtra := Extra(map[])

  /** A container of a pod spec; every field but `name` is optional. */
  datatype K8sContainer = K8sContainer(
    name: string,
    image: Option<string>,
    command: Option<seq<string>>,
    args: Option<seq<string>>,
    env: Option<seq<EnvVar>>,
    rest: Extra)

  datatype PodSpec = PodSpec(containers: seq<K8sContainer>, rest: Extra)
  datatype PodTemplateSpec = PodTemplateSpec(spec: Option<PodSpec>, rest: Extra)
  datatype K8sJobSpec = K8sJobSpec(template: PodTemplateSpec, rest: Extra)
  datatype JobTemplateSpec = JobTemplateSpec(spec: Option<K8sJobSpec>, rest: Extra)
  datatype CronJobSpec = CronJobSpec(jobTemplate: JobTemplateSpec, rest: Extra)
  datatype ObjectMeta = ObjectMeta(name: Option<string>, namespace: Option<string>, rest: Extra)
  datatype CronJob = CronJob(metadata: ObjectMeta, spec: Option<CronJobSpec>)
  datatype K8sJob = K8sJob(metadata: ObjectMeta, spec: Option<K8sJobSpec>)

  /** The cronjob carries every nested spec that the server unwraps. */
  predicate HasPodSpec(cj: CronJob) {
    && cj.spec.Some?
    && cj.spec.value.jobTemplate.spec.Some?
    && cj.spec.value.jobTemplate.spec.value.template.spec.Some?
  }

  /** The job spec of a cronjob that has one all the way down. */
  function JobSpecOf(cj: CronJob): K8sJobSpec
    requires HasPodSpec(cj)
  {
    cj.spec.value.jobTemplate.spec.value
  }

  /** The pod spec of a cronjob that has one all the way down. */
  function PodSpecOf(cj: CronJob): PodSpec
    requires HasPodSpec(cj)
  {
    JobSpecOf(cj).template.spec.value
  }

  /** A call the server makes to the cluster, with its arguments. */
  datatype ClientCall =
    | ListCronJobsCall(namespace: string)
    | GetCronJobCall(namespace: string, name: string)
    | CreateJobCall(namespace: string, job: K8sJob)
}
