/**
 * The form state that react-hook-form keeps for the job form: the current
 * values, with every row of every field array (the containers, and each
 * container's command, args and env lists) carrying a key that identifies the
 * row across re-renders. The library's id generation is modelled as one
 * counter that only grows, so a key is never issued twice, and removing a row
 * leaves every other row with its key.
 */
module FormControl {
  import opened Wrappers
  import opened Models

  /** A field-array row: its identity key and its value. */
  datatype Row<T> = Row(key: nat, value: T)

  function ValuesOf<T>(rows: seq<Row<T>>): (vs: seq<T>)
    ensures |vs| == |rows| && forall i :: 0 <= i < |rows| ==> vs[i] == rows[i].value
  {
    seq(|rows|, i requires 0 <= i < |rows| => rows[i].value)
  }

  function KeysOf<T>(rows: seq<Row<T>>): (ks: seq<nat>)
    ensures |ks| == |rows| && forall i :: 0 <= i < |rows| ==> ks[i] == rows[i].key
  {
    seq(|rows|, i requires 0 <= i < |rows| => rows[i].key)
  }

  /** The rows' keys are pairwise distinct and all below `bound`. */
  predicate KeysFresh<T>(rows: seq<Row<T>>, bound: nat) {
    && (forall i :: 0 <= i < |rows| ==> rows[i].key < bound)
    && (forall i, j :: 0 <= i < j < |rows| ==> rows[i].key != rows[j].key)
  }

  /** Every key of the rows is at least `start`: none was issued before `start`. */
  predicate KeysFrom<T>(rows: seq<Row<T>>, start: nat) {
    forall i :: 0 <= i < |rows| ==> rows[i].key >= start
  }

  /** `s` without its element at `index`; later elements move down by one. */
  function RemovedAt<T>(s: seq<T>, index: nat): (r: seq<T>)
    requires index < |s|
    ensures |r| == |s| - 1
    ensures forall i :: 0 <= i < index ==> r[i] == s[i]
    ensures forall i :: index <= i < |r| ==> r[i] == s[i + 1]
  {
    s[..index] + s[index + 1..]
  }

  /** The items wrapped, in order, with the consecutive keys `start`, `start + 1`, ... */
  function Keyed<T>(items: seq<T>, start: nat): (rows: seq<Row<T>>)
    ensures ValuesOf(rows) == items
    ensures KeysFresh(rows, start + |items|) && KeysFrom(rows, start)
  {
    seq(|items|, i requires 0 <= i < |items| => Row(start + i, items[i]))
  }

  /** A container row: its own scalar fields and its three keyed lists. */
  datatype ContainerRow = ContainerRow(
    name: string,
    image: string,
    command: seq<Row<StringForm>>,
    args: seq<Row<StringForm>>,
    env: seq<Row<EnvVar>>)
  {
    function StringRows(field: StringField): seq<Row<StringForm>> {
      match field
      case Command => command
      case Args => args
    }

    function WithStringRows(field: StringField, rows: seq<Row<StringForm>>): ContainerRow {
      match field
      case Command => this.(command := rows)
      case Args => this.(args := rows)
    }

    /** The container's values without keys. */
    function Form(): ContainerForm {
      ContainerForm(name, image, ValuesOf(command), ValuesOf(args), ValuesOf(env))
    }

    predicate KeysBelow(bound: nat) {
      KeysFresh(command, bound) && KeysFresh(args, bound) && KeysFresh(env, bound)
    }

    predicate KeysAtLeast(start: nat) {
      KeysFrom(command, start) && KeysFrom(args, start) && KeysFrom(env, start)
    }
  }

  /** How many keys the lists of a container need. */
  function Span(c: ContainerForm): nat {
    |c.command| + |c.args| + |c.env|
  }

  /** A container's lists keyed from `start` on: command first, then args, then env. */
  function KeyedContainer(c: ContainerForm, start: nat): (r: ContainerRow)
    ensures r.Form() == c
    ensures r.KeysBelow(start + Span(c)) && r.KeysAtLeast(start)
  {
    ContainerRow(c.name, c.image,
                 Keyed(c.command, start),
                 Keyed(c.args, start + |c.command|),
                 Keyed(c.env, start + |c.command| + |c.args|))
  }

  function Forms(rows: seq<Row<ContainerRow>>): (fs: seq<ContainerForm>)
    ensures |fs| == |rows| && forall i :: 0 <= i < |rows| ==> fs[i] == rows[i].value.Form()
  {
    seq(|rows|, i requires 0 <= i < |rows| => rows[i].value.Form())
  }

  /** The state of `useForm<JobForm>` together with its field arrays. */
  class JobFormControl {
    var cronjobData: CronJobData
    var containers: seq<Row<ContainerRow>>
    /** The next key to issue; every key issued so far is below it. */
    var nextKey: nat

    /** Within each list the keys are distinct, and no key has been issued yet at or above `nextKey`. */
    ghost predicate Valid()
      reads this
    {
      && KeysFresh(containers, nextKey)
      && forall i :: 0 <= i < |containers| ==> containers[i].value.KeysBelow(nextKey)
    }

    /** The form's values, as `handleSubmit` passes them on. */
    function Values(): JobForm
      reads this
    {
      JobForm(cronjobData, JobSpecForm(Forms(containers)))
    }

    /** `useForm`'s default values: no cronjob and no containers. */
    constructor ()
      ensures Valid()
      ensures Values() == JobForm(CronJobData("", ""), JobSpecForm([]))
    {
      cronjobData := CronJobData("", "");
      containers := [];
      nextKey := 0;
    }

    /** `setValue('cronjob_data', d)`. */
    method SetCronjobData(d: CronJobData)
      requires Valid()
      modifies this
      ensures Valid()
      ensures Values() == old(Values()).(cronjobData := d)
      ensures containers == old(containers) && nextKey == old(nextKey)
    {
      cronjobData := d;
    }

    /**
     * `setValue('spec.containers', forms)`: the whole list is replaced and
     * every row, nested ones included, gets a key never issued before.
     */
    method SetContainers(forms: seq<ContainerForm>)
      requires Valid()
      modifies this
      ensures Valid()
      ensures Values() == old(Values()).(spec := JobSpecForm(forms))
      ensures nextKey >= old(nextKey)
      ensures KeysFrom(containers, old(nextKey))
      ensures forall i :: 0 <= i < |containers| ==> containers[i].value.KeysAtLeast(old(nextKey))
    {
      var rows: seq<Row<ContainerRow>> := [];
      var i := 0;
      while i < |forms|
        invariant 0 <= i <= |forms|
        invariant old(nextKey) <= nextKey
        invariant Forms(rows) == forms[..i]
        invariant KeysFresh(rows, nextKey) && KeysFrom(rows, old(nextKey))
        invariant forall k :: 0 <= k < |rows| ==>
                    rows[k].value.KeysBelow(nextKey) && rows[k].value.KeysAtLeast(old(nextKey))
        invariant cronjobData == old(cronjobData)
      {
        var row := KeyedContainer(forms[i], nextKey + 1);
        rows := rows + [Row(nextKey, row)];
        nextKey := nextKey + 1 + Span(forms[i]);
        i := i + 1;
      }
      containers := rows;
    }
  
    /** `append(c)` on the containers: one row at the end, with a fresh key for it and its lists. */
    method AppendContainer(c: ContainerForm)
      requires Valid()
      modifies this
      ensures Valid()
      ensures |containers| == old(|containers|) + 1
      ensures containers[..old(|containers|)] == old(containers)
      ensures containers[old(|containers|)] == Row(old(nextKey), KeyedContainer(c, old(nextKey) + 1))
      ensures cronjobData == old(cronjobData) && nextKey > old(nextKey)
      ensures Values() == old(Values()).(spec := JobSpecForm(old(Values()).spec.containers + [c]))
    {
      containers := containers + [Row(nextKey, KeyedContainer(c, nextKey + 1))];
      nextKey := nextKey + 1 + Span(c);
      assert Forms(containers) == Forms(old(containers)) + [c];
    }

    /** `remove(index)` on the containers; an index past the end removes nothing. */
    method RemoveContainer(index: nat) returns (removed: bool)
      requires Valid()
      modifies this
      ensures Valid()
      ensures removed == (index < old(|containers|))
      ensures removed ==> containers == RemovedAt(old(containers), index)
      ensures !removed ==> containers == old(containers)
      ensures cronjobData == old(cronjobData) && nextKey == old(nextKey)
      ensures removed ==> Values() == old(Values()).(spec := JobSpecForm(RemovedAt(old(Values()).spec.containers, index)))
    {
      removed := index < |containers|;
      if removed {
        containers := RemovedAt(containers, index);
        assert Forms(containers) == RemovedAt(Forms(old(containers)), index);
      }
    }

    /** The container at `ci` with new scalar fields or lists; `nextKey` moves past any key the new lists use. */
    method PutContainer(ci: nat, row: ContainerRow, next: nat)
      requires ci < |containers| && nextKey <= next
      requires KeysFresh(containers, nextKey)
      requires forall i :: 0 <= i < |containers| && i != ci ==> containers[i].value.KeysBelow(nextKey)
      requires row.KeysBelow(next)
      modifies this
      ensures Valid()
      ensures containers == old(containers)[ci := Row(old(containers[ci].key), row)]
      ensures cronjobData == old(cronjobData) && nextKey == next
      ensures Values() == old(Values()).WithContainer(ci, row.Form())
    {
      containers := containers[ci := Row(containers[ci].key, row)];
      nextKey := next;
      assert Forms(containers) == Forms(old(containers))[ci := row.Form()];
    }
  
    /** The `name` of container `ci`, as its Controller's onChange sets it. */
    method SetContainerName(ci: nat, text: string)
      requires Valid() && ci < |containers|
      modifies this
      ensures Valid()
      ensures containers == old(containers)[ci := Row(old(containers[ci].key), old(containers[ci].value).(name := text))]
      ensures cronjobData == old(cronjobData) && nextKey == old(nextKey)
      ensures Values() == old(Values()).WithContainer(ci, old(Values()).spec.containers[ci].(name := text))
    {
      PutContainer(ci, containers[ci].value.(name := text), nextKey);
    }

    /** The `image` of container `ci`, as its Controller's onChange sets it. */
    method SetContainerImage(ci: nat, text: string)
      requires Valid() && ci < |containers|
      modifies this
      ensures Valid()
      ensures containers == old(containers)[ci := Row(old(containers[ci].key), old(containers[ci].value).(image := text))]
      ensures cronjobData == old(cronjobData) && nextKey == old(nextKey)
      ensures Values() == old(Values()).WithContainer(ci, old(Values()).spec.containers[ci].(image := text))
    {
      PutContainer(ci, containers[ci].value.(image := text), nextKey);
    }

    /** `append(v)` on the `field` list of container `ci`: one row at the end with a fresh key. */
    method AppendStringRow(ci: nat, field: StringField, v: StringForm)
      requires Valid() && ci < |containers|
      modifies this
      ensures Valid()
      ensures containers == old(containers)[ci := Row(old(containers[ci].key),
                old(containers[ci].value).WithStringRows(field,
                  old(containers[ci].value.StringRows(field)) + [Row(old(nextKey), v)]))]
      ensures cronjobData == old(cronjobData) && nextKey == old(nextKey) + 1
      ensures Values() == old(Values()).WithContainer(ci,
                old(Values()).spec.containers[ci].WithStrings(field,
                  old(Values()).spec.containers[ci].Strings(field) + [v]))
    {
      var c := containers[ci].value;
      var rows := c.StringRows(field) + [Row(nextKey, v)];
      assert ValuesOf(rows) == ValuesOf(c.StringRows(field)) + [v];
      PutContainer(ci, c.WithStringRows(field, rows), nextKey + 1);
    }

    /** `remove(index)` on the `field` list of container `ci`; an index past the end removes nothing. */
    method RemoveStringRow(ci: nat, field: StringField, index: nat) returns (removed: bool)
      requires Valid() && ci < |containers|
      modifies this
      ensures Valid()
      ensures removed == (index < |old(containers[ci].value.StringRows(field))|)
      ensures removed ==> containers == old(containers)[ci := Row(old(containers[ci].key),
                old(containers[ci].value).WithStringRows(field,
                  RemovedAt(old(containers[ci].value.StringRows(field)), index)))]
      ensures !removed ==> containers == old(containers)
      ensures cronjobData == old(cronjobData) && nextKey == old(nextKey)
      ensures removed ==> Values() == old(Values()).WithContainer(ci,
                old(Values()).spec.containers[ci].WithStrings(field,
                  RemovedAt(old(Values()).spec.containers[ci].Strings(field), index)))
    {
      var c := containers[ci].value;
      removed := index < |c.StringRows(field)|;
      if removed {
        var rows := RemovedAt(c.StringRows(field), index);
        assert ValuesOf(rows) == RemovedAt(ValuesOf(c.StringRows(field)), index);
        PutContainer(ci, c.WithStringRows(field, rows), nextKey);
      }
    }

    /** The value of row `index` of the `field` list of container `ci`, bound by position. */
    method SetStringValue(ci: nat, field: StringField, index: nat, text: string)
      requires Valid() && ci < |containers| && index < |containers[ci].value.StringRows(field)|
      modifies this
      ensures Valid()
      ensures containers == old(containers)[ci := Row(old(containers[ci].key),
                old(containers[ci].value).WithStringRows(field,
                  old(containers[ci].value.StringRows(field))[index := Row(old(containers[ci].value.StringRows(field)[index].key), StringForm(text))]))]
      ensures cronjobData == old(cronjobData) && nextKey == old(nextKey)
      ensures Values() == old(Values()).WithContainer(ci,
                old(Values()).spec.containers[ci].WithStrings(field,
                  old(Values()).spec.containers[ci].Strings(field)[index := StringForm(text)]))
    {
      var c := containers[ci].value;
      var rows := c.StringRows(field)[index := Row(c.StringRows(field)[index].key, StringForm(text))];
      assert ValuesOf(rows) == ValuesOf(c.StringRows(field))[index := StringForm(text)];
      PutContainer(ci, c.WithStringRows(field, rows), nextKey);
    }

    /** `append(e)` on the env list of container `ci`: one row at the end with a fresh key. */
    method AppendEnvRow(ci: nat, e: EnvVar)
      requires Valid() && ci < |containers|
      modifies this
      ensures Valid()
      ensures containers == old(containers)[ci := Row(old(containers[ci].key),
                old(containers[ci].value).(env := old(containers[ci].value.env) + [Row(old(nextKey), e)]))]
      ensures cronjobData == old(cronjobData) && nextKey == old(nextKey) + 1
      ensures Values() == old(Values()).WithContainer(ci,
                old(Values()).spec.containers[ci].(env := old(Values()).spec.containers[ci].env + [e]))
    {
      var c := containers[ci].value;
      var rows := c.env + [Row(nextKey, e)];
      assert ValuesOf(rows) == ValuesOf(c.env) + [e];
      PutContainer(ci, c.(env := rows), nextKey + 1);
    }

    /** `remove(index)` on the env list of container `ci`; an index past the end removes nothing. */
    method RemoveEnvRow(ci: nat, index: nat) returns (removed: bool)
      requires Valid() && ci < |containers|
      modifies this
      ensures Valid()
      ensures removed == (index < |old(containers[ci].value.env)|)
      ensures removed ==> containers == old(containers)[ci := Row(old(containers[ci].key),
                old(containers[ci].value).(env := RemovedAt(old(containers[ci].value.env), index)))]
      ensures !removed ==> containers == old(containers)
      ensures cronjobData == old(cronjobData) && nextKey == old(nextKey)
      ensures removed ==> Values() == old(Values()).WithContainer(ci,
                old(Values()).spec.containers[ci].(env := RemovedAt(old(Values()).spec.containers[ci].env, index)))
    {
      var c := containers[ci].value;
      removed := index < |c.env|;
      if removed {
        var rows := RemovedAt(c.env, index);
        assert ValuesOf(rows) == RemovedAt(ValuesOf(c.env), index);
        PutContainer(ci, c.(env := rows), nextKey);
      }
    }

    /** Row `index` of the env list of container `ci` with a new value; it keeps its key. */
    method PutEnv(ci: nat, index: nat, e: EnvVar)
      requires Valid() && ci < |containers| && index < |containers[ci].value.env|
      modifies this
      ensures Valid()
      ensures containers == old(containers)[ci := Row(old(containers[ci].key),
                old(containers[ci].value).(env := old(containers[ci].value.env)[index := Row(old(containers[ci].value.env[index].key), e)]))]
      ensures cronjobData == old(cronjobData) && nextKey == old(nextKey)
      ensures Values() == old(Values()).WithContainer(ci,
                old(Values()).spec.containers[ci].(env := old(Values()).spec.containers[ci].env[index := e]))
    {
      var c := containers[ci].value;
      var rows := c.env[index := Row(c.env[index].key, e)];
      assert ValuesOf(rows) == ValuesOf(c.env)[index := e];
      PutContainer(ci, c.(env := rows), nextKey);
    }
  }
}
