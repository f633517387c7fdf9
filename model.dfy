/**
 * The server's projection of a Kubernetes cronjob onto the template it lists
 * (src/model.rs): optional fields are flattened to plain strings and lists,
 * with the empty string or the empty list standing for an absent value.
 */
module Model {
  import opened Wrappers
  import opened Models
  import opened Kube

  /** `Container::new`: keeps the name and flattens every optional field. */
  function ContainerNew(c: K8sContainer): (r: PodContainer)
    ensures r.name == c.name
    ensures c.image == Some(r.image) || (c.image.None? && r.image == "")
    ensures c.command == Some(r.command) || (c.command.None? && r.command == [])
    ensures c.args == Some(r.args) || (c.args.None? && r.args == [])
    ensures c.env == Some(r.env) || (c.env.None? && r.env == [])
  {
    PodContainer(c.name, c.image.GetOr(""), c.command.GetOr([]), c.args.GetOr([]), c.env.GetOr([]))
  }

  /** The containers of a pod spec, projected one for one and in order. */
  function ContainersNew(cs: seq<K8sContainer>): (r: seq<PodContainer>)
    ensures |r| == |cs|
    ensures forall i :: 0 <= i < |cs| ==> r[i] == ContainerNew(cs[i])
  {
    if cs == [] then [] else [ContainerNew(cs[0])] + ContainersNew(cs[1..])
  }

  /**
   * `JobTemplate::new`. The source unwraps the cronjob spec, the job template
   * spec and the pod template spec, and panics when one is absent; callers
   * must pass a cronjob that has all three.
   */
  function JobTemplateNew(cj: CronJob): (r: Job)
    requires HasPodSpec(cj)
    ensures cj.metadata.name == Some(r.cronjobData.name)
            || (cj.metadata.name.None? && r.cronjobData.name == "")
    ensures cj.metadata.namespace == Some(r.cronjobData.namespace)
            || (cj.metadata.namespace.None? && r.cronjobData.namespace == "")
    ensures |r.spec.containers| == |PodSpecOf(cj).containers|
    ensures forall i :: 0 <= i < |r.spec.containers| ==>
              r.spec.containers[i] == ContainerNew(PodSpecOf(cj).containers[i])
  {
    Job(
      CronJobData(cj.metadata.name.GetOr(""), cj.metadata.namespace.GetOr("")),
      JobSpec(ContainersNew(PodSpecOf(cj).containers)))
  }

  /** The projection cannot tell an absent list from an empty one. */
  lemma ContainerNewForgetsAbsence(c: K8sContainer)
    ensures ContainerNew(c.(command := None)) == ContainerNew(c.(command := Some([])))
    ensures ContainerNew(c.(args := None)) == ContainerNew(c.(args := Some([])))
    ensures ContainerNew(c.(env := None)) == ContainerNew(c.(env := Some([])))
    ensures ContainerNew(c.(image := None)) == ContainerNew(c.(image := Some("")))
  {
  }
}
