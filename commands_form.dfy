/**
 * The row editor for one container's `command` or `args` list
 * (front/src/components/CommandsForm.tsx). Its rows are the field array at
 * `spec.containers.<containerIndex>.<fieldName>`; row `i` edits element `i`'s
 * `value`, which is required.
 */
module CommandsForm {
  import opened Models
  import opened FormControl

  /** The `required` rule on a row's value: it must not be empty. */
  predicate RowValid(row: StringForm) {
    row.value != ""
  }

  /** The row the "Add" button appends. */
  const BlankRow := StringForm("")

  /**
   * "Add": appends one blank row, with a key never issued before, at the end
   * of this list of this container; every other row keeps its value and key,
   * and the new row fails the required rule until it is filled in.
   */
  method Add(form: JobFormControl, containerIndex: nat, fieldName: StringField)
    requires form.Valid() && containerIndex < |form.containers|
    modifies form
    ensures form.Valid()
    ensures form.containers == old(form.containers)[containerIndex := Row(old(form.containers[containerIndex].key),
              old(form.containers[containerIndex].value).WithStringRows(fieldName,
                old(form.containers[containerIndex].value.StringRows(fieldName)) + [Row(old(form.nextKey), BlankRow)]))]
    ensures form.cronjobData == old(form.cronjobData) && form.nextKey == old(form.nextKey) + 1
    ensures form.Values() == old(form.Values()).WithContainer(containerIndex,
              old(form.Values()).spec.containers[containerIndex].WithStrings(fieldName,
                old(form.Values()).spec.containers[containerIndex].Strings(fieldName) + [BlankRow]))
    ensures KeysOf(form.containers[containerIndex].value.StringRows(fieldName))
            == old(KeysOf(form.containers[containerIndex].value.StringRows(fieldName))) + [old(form.nextKey)]
    ensures !RowValid(form.Values().spec.containers[containerIndex].Strings(fieldName)[
              |form.Values().spec.containers[containerIndex].Strings(fieldName)| - 1])
  {
    form.AppendStringRow(containerIndex, fieldName, BlankRow);
  }

  /**
   * The delete button of row `index`: removes that row only; the rows after
   * it move down one place and keep their keys, and no key is issued, so the
   * removed key is never handed out again.
   */
  method Delete(form: JobFormControl, containerIndex: nat, fieldName: StringField, index: nat)
    requires form.Valid() && containerIndex < |form.containers|
    requires index < |form.containers[containerIndex].value.StringRows(fieldName)|
    modifies form
    ensures form.Valid()
    ensures form.containers == old(form.containers)[containerIndex := Row(old(form.containers[containerIndex].key),
              old(form.containers[containerIndex].value).WithStringRows(fieldName,
                RemovedAt(old(form.containers[containerIndex].value.StringRows(fieldName)), index)))]
    ensures form.cronjobData == old(form.cronjobData) && form.nextKey == old(form.nextKey)
    ensures form.Values() == old(form.Values()).WithContainer(containerIndex,
              old(form.Values()).spec.containers[containerIndex].WithStrings(fieldName,
                RemovedAt(old(form.Values()).spec.containers[containerIndex].Strings(fieldName), index)))
    ensures KeysOf(form.containers[containerIndex].value.StringRows(fieldName))
            == RemovedAt(old(KeysOf(form.containers[containerIndex].value.StringRows(fieldName))), index)
  {
    var _ := form.RemoveStringRow(containerIndex, fieldName, index);
  }

  /** Typing into row `index`: sets that element's value and nothing else; the row keeps its key. */
  method Edit(form: JobFormControl, containerIndex: nat, fieldName: StringField, index: nat, text: string)
    requires form.Valid() && containerIndex < |form.containers|
    requires index < |form.containers[containerIndex].value.StringRows(fieldName)|
    modifies form
    ensures form.Valid()
    ensures form.containers == old(form.containers)[containerIndex := Row(old(form.containers[containerIndex].key),
              old(form.containers[containerIndex].value).WithStringRows(fieldName,
                old(form.containers[containerIndex].value.StringRows(fieldName))[index :=
                  Row(old(form.containers[containerIndex].value.StringRows(fieldName)[index].key), StringForm(text))]))]
    ensures form.cronjobData == old(form.cronjobData) && form.nextKey == old(form.nextKey)
    ensures form.Values() == old(form.Values()).WithContainer(containerIndex,
              old(form.Values()).spec.containers[containerIndex].WithStrings(fieldName,
                old(form.Values()).spec.containers[containerIndex].Strings(fieldName)[index := StringForm(text)]))
    ensures KeysOf(form.containers[containerIndex].value.StringRows(fieldName))
            == old(KeysOf(form.containers[containerIndex].value.StringRows(fieldName)))
  {
    form.SetStringValue(containerIndex, fieldName, index, text);
  }
}
