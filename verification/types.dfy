/** The records the components exchange with the backend and with each other. */
module Types {
  import opened Base

  /** An authenticated identity as the backend hands it out; the email may be absent. */
  datatype User = User(id: string, email: Option<string>)

  /** A backend session: a token with its expiry, issued for one user. */
  datatype Session = Session(accessToken: string, expiresAt: int, user: User)

  /** A row of the `profiles` table, keyed by the user id. */
  datatype Profile = Profile(id: string, updatedAt: string, fullName: Option<string>, avatarUrl: Option<string>)

  /** The error object a database call resolves with; only its message is read. */
  datatype BackendError = BackendError(message: string)

  /** A value that reaches a `catch` block: its `name` and `message`, and whether it is
      an instance of `Error` (only then does the catch block read its message). */
  datatype Thrown = Thrown(name: string, message: string, isErrorInstance: bool)

  /** A row of the `workflow_runs` log. */
  datatype WorkflowRun = WorkflowRun(id: int, createdAt: string, userId: string, workflowTitle: string)

  datatype FieldKind = Text | TextArea | Select | Email | Number

  /** One input of a catalog entry's trigger form. */
  datatype InputField = InputField(
    name: string,
    labelText: string,
    kind: FieldKind,
    placeholder: Option<string>,
    defaultValue: Option<string>,
    options: Option<seq<string>>)

  /** The field names of a form, in order. */
  function FieldNames(fields: seq<InputField>): (names: seq<string>)
    ensures |names| == |fields|
    ensures forall i :: 0 <= i < |fields| ==> names[i] == fields[i].name
  {
    seq(|fields|, i requires 0 <= i < |fields| => fields[i].name)
  }

  /** A catalog entry; its icon and its randomly generated webhook URL are not modelled. */
  datatype Service = Service(title: string, description: string, inputFields: seq<InputField>)
}
