/**
 * The value types shared by the whole application: an action item with an
 * optional owner and deadline, the structured summary produced by the
 * summarisation service, and the three input modes of the transcript panel.
 */
module Types {

  datatype Option<+T> = None | Some(value: T)

  /** A task extracted from the meeting; `owner` and `deadline` may be absent. */
  datatype ActionItem = ActionItem(task: string, owner: Option<string>, deadline: Option<string>)

  /** The summary returned by the service; each list keeps the service's order. */
  datatype Summary = Summary(keyPoints: seq<string>, decisions: seq<string>, actionItems: seq<ActionItem>)

  datatype InputMode = Record | Upload | Paste

  const NotAvailable: string := "N/A"

  /**
   * The value of `field || 'N/A'` for an optional string field: JavaScript's
   * `||` falls back to the right operand when the left one is missing or is
   * the empty string (both are falsy).
   */
  function OrNA(field: Option<string>): (r: string)
    ensures r == NotAvailable <==> (field == None || field == Some("") || field == Some(NotAvailable))
    ensures field.Some? && field.value != "" ==> r == field.value
    ensures r != ""
  {
    match field
    case Some(v) => if v != "" then v else NotAvailable
    case None => NotAvailable
  }
}
