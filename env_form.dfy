/**
 * The row editor for one container's `env` list
 * (front/src/components/EnvForm.tsx). Row `i` edits the `name` (required)
 * and the `value` (no rule) of element `i`; `value_from` has no editor.
 */
module EnvForm {
  import opened Wrappers
  import opened Models
  import opened FormControl

  /** The `required` rule on a row's name; the value may be empty. */
  predicate RowValid(row: EnvVar) {
    row.name != ""
  }

  /** The row the "Add" button appends: `{value: ''}`, with no name and no `value_from`. */
  const BlankRow := EnvVar("", Some(""), None)

  /** "Add": appends one blank row, with a key never issued before, at the end; it fails the name rule until a name is typed. */
  method Add(form: JobFormControl, containerIndex: nat)
    requires form.Valid() && containerIndex < |form.containers|
    modifies form
    ensures form.Valid()
    ensures form.containers == old(form.containers)[containerIndex := Row(old(form.containers[containerIndex].key),
              old(form.containers[containerIndex].value).(env := old(form.containers[containerIndex].value.env) + [Row(old(form.nextKey), BlankRow)]))]
    ensures form.cronjobData == old(form.cronjobData) && form.nextKey == old(form.nextKey) + 1
    ensures form.Values() == old(form.Values()).WithContainer(containerIndex,
              old(form.Values()).spec.containers[containerIndex].(env :=
                old(form.Values()).spec.containers[containerIndex].env + [BlankRow]))
    ensures KeysOf(form.containers[containerIndex].value.env)
            == old(KeysOf(form.containers[containerIndex].value.env)) + [old(form.nextKey)]
    ensures !RowValid(form.Values().spec.containers[containerIndex].env[
              |form.Values().spec.containers[containerIndex].env| - 1])
  {
    form.AppendEnvRow(containerIndex, BlankRow);
  }

  /** The delete button of row `index`: removes that row only; the others keep their keys and no key is issued. */
  method Delete(form: JobFormControl, containerIndex: nat, index: nat)
    requires form.Valid() && containerIndex < |form.containers|
    requires index < |form.containers[containerIndex].value.env|
    modifies form
    ensures form.Valid()
    ensures form.containers == old(form.containers)[containerIndex := Row(old(form.containers[containerIndex].key),
              old(form.containers[containerIndex].value).(env := RemovedAt(old(form.containers[containerIndex].value.env), index)))]
    ensures form.cronjobData == old(form.cronjobData) && form.nextKey == old(form.nextKey)
    ensures form.Values() == old(form.Values()).WithContainer(containerIndex,
              old(form.Values()).spec.containers[containerIndex].(env :=
                RemovedAt(old(form.Values()).spec.containers[containerIndex].env, index)))
    ensures KeysOf(form.containers[containerIndex].value.env)
            == RemovedAt(old(KeysOf(form.containers[containerIndex].value.env)), index)
  {
    var _ := form.RemoveEnvRow(containerIndex, index);
  }

  /** Typing into the name of row `index`: its value and `value_from` stay as they were. */
  method EditName(form: JobFormControl, containerIndex: nat, index: nat, text: string)
    requires form.Valid() && containerIndex < |form.containers|
    requires index < |form.containers[containerIndex].value.env|
    modifies form
    ensures form.Valid()
    ensures form.containers == old(form.containers)[containerIndex := Row(old(form.containers[containerIndex].key),
              old(form.containers[containerIndex].value).(env := old(form.containers[containerIndex].value.env)[index :=
                Row(old(form.containers[containerIndex].value.env[index].key), old(form.containers[containerIndex].value.env[index].value).(name := text))]))]
    ensures form.cronjobData == old(form.cronjobData) && form.nextKey == old(form.nextKey)
    ensures form.Values() == old(form.Values()).WithContainer(containerIndex,
              old(form.Values()).spec.containers[containerIndex].(env :=
                old(form.Values()).spec.containers[containerIndex].env[index :=
                  old(form.Values()).spec.containers[containerIndex].env[index].(name := text)]))
    ensures KeysOf(form.containers[containerIndex].value.env) == old(KeysOf(form.containers[containerIndex].value.env))
  {
    var e := form.containers[containerIndex].value.env[index].value;
    form.PutEnv(containerIndex, index, e.(name := text));
  }

  /** Typing into the value of row `index`: its name and `value_from` stay as they were. */
  method EditValue(form: JobFormControl, containerIndex: nat, index: nat, text: string)
    requires form.Valid() && containerIndex < |form.containers|
    requires index < |form.containers[containerIndex].value.env|
    modifies form
    ensures form.Valid()
    ensures form.containers == old(form.containers)[containerIndex := Row(old(form.containers[containerIndex].key),
              old(form.containers[containerIndex].value).(env := old(form.containers[containerIndex].value.env)[index :=
                Row(old(form.containers[containerIndex].value.env[index].key), old(form.containers[containerIndex].value.env[index].value).(value := Some(text)))]))]
    ensures form.cronjobData == old(form.cronjobData) && form.nextKey == old(form.nextKey)
    ensures form.Values() == old(form.Values()).WithContainer(containerIndex,
              old(form.Values()).spec.containers[containerIndex].(env :=
                old(form.Values()).spec.containers[containerIndex].env[index :=
                  old(form.Values()).spec.containers[containerIndex].env[index].(value := Some(text))]))
    ensures KeysOf(form.containers[containerIndex].value.env) == old(KeysOf(form.containers[containerIndex].value.env))
  {
    var e := form.containers[containerIndex].value.env[index].value;
    form.PutEnv(containerIndex, index, e.(value := Some(text)));
  }
}
