/** Values shared by every component: optional values and the abstract
    outcome of a request to a remote service. */
module Results {

  datatype Option<+T> = None | Some(value: T)

  /** What awaiting a remote call can give back to a handler: a response whose
      status is ok carrying its decoded body, a response whose status is not
      ok (with the `detail` text of its body when there is one), or an
      exception (with its message when the thrown value was an Error). */
  datatype Outcome<+T> =
    | Ok(data: T)
    | NotOk(detail: Option<string>)
    | Threw(message: Option<string>)

  /** JavaScript truthiness of an optional string: present and non-empty. */
  predicate TruthyText(s: Option<string>)
  {
    s.Some? && s.value != ""
  }
}
