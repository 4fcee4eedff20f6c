/** The `value || 'N/A'` fallback of the component's status readouts. */
module StatusText {
  import opened Wrappers

  /** The marker shown for a missing or empty text field. */
  const Unavailable: string := "N/A"

  /**
   * A text field as JavaScript's `||` shows it: `None` is an absent (undefined or null)
   * field, and the empty string is falsy as well.
   */
  function ShowOrUnavailable(field: Option<string>): (shown: string)
    ensures shown != ""
    ensures field.Some? && field.value != "" ==> shown == field.value
    ensures field.None? || field.value == "" ==> shown == Unavailable
  {
    match field
    case Some(text) => if text != "" then text else Unavailable
    case None => Unavailable
  }

  /** Showing an already shown text again changes nothing. */
  lemma ShowIdempotent(field: Option<string>)
    ensures ShowOrUnavailable(Some(ShowOrUnavailable(field))) == ShowOrUnavailable(field)
  {
  }
}
