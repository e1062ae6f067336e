/** A submitted HTML form, as the server actions receive it (text fields
    by name), and what an action reports back. */
module FormData {
  import opened Wrappers

  type Form = map<string, string>

  /** `{ success: true }`, or `{ error }` with the action's message. */
  datatype Outcome = Success | Failure(error: string)

  /** `formData.get(name)`: the field's text, or `None` (`null`) when the
      form has no such field. */
  function Get(form: Form, name: string): (r: Option<string>)
    ensures r.Some? <==> name in form
    ensures r.Some? ==> r.value == form[name]
  {
    if name in form then Some(form[name]) else None
  }

  /** A field whose absence the code treats like the empty string: in a
      condition (`if (field)`) or with `|| ''`. */
  function Text(form: Form, name: string): (r: string)
    ensures name in form ==> r == form[name]
    ensures name !in form ==> r == ""
  {
    Get(form, name).GetOr("")
  }
}
