/**
 * The records exchanged between the form and the server, and the records the
 * form edits (front/src/models/index.ts). The server's `JobTemplate` and
 * `model::Container` (src/model.rs) serialise to exactly the same JSON shape as
 * the front end's `Job` and `PodContainer`, so both sides share these types.
 */
module Models {
  import opened Wrappers

  /** Which cronjob a job was derived from. */
  datatype CronJobData = CronJobData(name: string, namespace: string)

  /** The `value_from` payload of an environment variable: carried along, never inspected. */
  datatype ValueFrom = ValueFrom(source: string)

  /** An environment variable as Kubernetes serialises it; `value` may be omitted on the wire. */
  datatype EnvVar = EnvVar(name: string, value: Option<string>, valueFrom: Option<ValueFrom>)

  /** Wire form of a container: command and args are plain strings. */
  datatype PodContainer = PodContainer(
    name: string,
    image: string,
    command: seq<string>,
    args: seq<string>,
    env: seq<EnvVar>)

  datatype JobSpec = JobSpec(containers: seq<PodContainer>)

  /** The wire model: a template listed by the server, or a job sent to it. */
  datatype Job = Job(cronjobData: CronJobData, spec: JobSpec)

  /** Edit form of one command or args element. */
  datatype StringForm = StringForm(value: string)

  /** The two string lists a container has; the row editor works on one of them. */
  datatype StringField = Command | Args

  /** Edit form of a container: command and args elements are wrapped, env is the same list as on the wire. */
  datatype ContainerForm = ContainerForm(
    name: string,
    image: string,
    command: seq<StringForm>,
    args: seq<StringForm>,
    env: seq<EnvVar>)
  {
    /** The list named by `field`. */
    function Strings(field: StringField): seq<StringForm> {
      match field
      case Command => command
      case Args => args
    }

    /** This container with the list named by `field` replaced. */
    function WithStrings(field: StringField, rows: seq<StringForm>): ContainerForm {
      match field
      case Command => this.(command := rows)
      case Args => this.(args := rows)
    }
  }

  datatype JobSpecForm = JobSpecForm(containers: seq<ContainerForm>)

  /** The values held by the form; shares `CronJobData` with `Job`. */
  datatype JobForm = JobForm(cronjobData: CronJobData, spec: JobSpecForm)
  {
    /** This form with container `index` replaced. */
    function WithContainer(index: nat, c: ContainerForm): JobForm
      requires index < |spec.containers|
    {
      this.(spec := JobSpecForm(spec.containers[index := c]))
    }
  }
}
