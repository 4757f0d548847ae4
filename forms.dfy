/**
 * What the admin forms do with a submitted `FormData`: read a field,
 * test it for truthiness, and pick the create or update endpoint.
 */
module Forms {
  import opened Wrappers

  /** The submitted fields by name; a checkbox appears only when it is ticked. */
  type FormData = map<string, string>

  /** `formData.get(key)`: the value, or `null` when the field was not submitted. */
  function Get(form: FormData, key: string): (v: Option<string>)
    ensures v.Some? <==> key in form
    ensures v.Some? ==> v.value == form[key]
  {
    if key in form then Some(form[key]) else None
  }

  /** JavaScript truthiness of a string-or-null: neither `null` nor `''`. */
  predicate Truthy(v: Option<string>)
  {
    v.Some? && v.value != ""
  }

  /** `formData.get(key) ? ... : ...`: the checkbox was ticked. */
  predicate IsChecked(form: FormData, key: string)
  {
    Truthy(Get(form, key))
  }

  /** `value || null`: an empty selection is sent as `null`. */
  function OrNull(v: Option<string>): (r: Option<string>)
    ensures r.Some? <==> Truthy(v)
    ensures r.Some? ==> r == v
  {
    if Truthy(v) then v else None
  }

  /** `editing ? 'update.php' : 'create.php'`. */
  function Endpoint(editing: bool): (e: string)
  {
    if editing then "update.php" else "create.php"
  }

  lemma EndpointIsUpdateIffEditing(editing: bool)
    ensures Endpoint(editing) == "update.php" <==> editing
    ensures Endpoint(editing) == "create.php" <==> !editing
  {
  }
}
