/** The trigger form (src/components/TriggerWorkflowModal.tsx): a map from field name to
    typed value, initialised from the catalog entry's defaults; a submit that waits, draws
    success or failure, shows the outcome and, on success with a user, logs a run. The
    random draw and the backend's answer to the log insert are parameters. */
module TriggerWorkflowModal {
  import opened Base
  import opened Types
  import Dashboard

  const TriggerSuccessText := "Workflow triggered successfully! Check your n8n instance for results."
  const TriggerFailureText := "Failed to trigger workflow. The webhook endpoint returned an error."
  const EscapeKey := "Escape"

  datatype ResponseKind = Success | Failure
  datatype TriggerResponse = TriggerResponse(kind: ResponseKind, text: string)

  /** The row a successful trigger asks the backend to insert into `workflow_runs`. */
  datatype RunInsert = RunInsert(userId: string, workflowTitle: string)

  /** What a finished submit shows and which run, if any, it logs. */
  datatype TriggerOutcome = TriggerOutcome(response: TriggerResponse, logged: Option<RunInsert>)

  /** `field.defaultValue || ''`: the `''` fallback only replaces an absent default (an
      empty default is `''` already). */
  function FieldDefault(f: InputField): (v: string)
    ensures f.defaultValue.Some? ==> v == f.defaultValue.value
    ensures f.defaultValue.None? ==> v == ""
  {
    if Truthy(f.defaultValue) then f.defaultValue.value else ""
  }

  /** The `reduce` that builds the initial form data: fields are visited in order, each
      setting its name to its default. */
  function InitialFormData(fields: seq<InputField>): (m: map<string, string>)
    ensures forall k :: k in m <==> k in FieldNames(fields)
    decreases |fields|
  {
    if fields == [] then map[]
    else
      var last := fields[|fields| - 1];
      var m := InitialFormData(fields[..|fields| - 1])[last.name := FieldDefault(last)];
      assert FieldNames(fields) == FieldNames(fields[..|fields| - 1]) + [last.name];
      m
  }

  /** With pairwise-distinct field names, the initial form data maps every field's name to
      that field's default, or `''` when it has none. */
  lemma {:induction false} InitialFormDataDefaults(fields: seq<InputField>, i: int)
    requires forall a, b :: 0 <= a < b < |fields| ==> fields[a].name != fields[b].name
    requires 0 <= i < |fields|
    ensures fields[i].name in InitialFormData(fields)
    ensures InitialFormData(fields)[fields[i].name] == FieldDefault(fields[i])
  {
    var n := |fields| - 1;
    if i < n {
      var pre := fields[..n];
      assert pre[i] == fields[i];
      InitialFormDataDefaults(pre, i);
      assert fields[i].name != fields[n].name;
    }
  }

  /** Every catalog entry's form opens with each field set to its default. */
  lemma CatalogFormsStartAtDefaults(s: Service, i: int)
    requires s in Dashboard.Services
    requires 0 <= i < |s.inputFields|
    ensures InitialFormData(s.inputFields)[s.inputFields[i].name] == FieldDefault(s.inputFields[i])
  {
    Dashboard.CatalogWellFormed();
    var names := FieldNames(s.inputFields);
    assert forall a, b :: 0 <= a < b < |s.inputFields| ==> s.inputFields[a].name != s.inputFields[b].name by {
      forall a, b | 0 <= a < b < |s.inputFields| ensures s.inputFields[a].name != s.inputFields[b].name {
        assert names[a] != names[b];
      }
    }
    InitialFormDataDefaults(s.inputFields, i);
  }

  /** The outcome of a submit after the wait: on a successful draw the fixed success text
      and, only when there is a user, a run for that user and this entry's title; on a
      failed draw the fixed failure text and no run. */
  function SubmitOutcome(drawSucceeded: bool, user: Option<User>, title: string): (o: TriggerOutcome)
    ensures o.response.kind == Success <==> drawSucceeded
    ensures drawSucceeded ==> o.response.text == TriggerSuccessText
    ensures !drawSucceeded ==> o.response.text == TriggerFailureText
    ensures o.logged.Some? <==> drawSucceeded && user.Some?
    ensures o.logged.Some? ==> o.logged.value == RunInsert(user.value.id, title)
  {
    if drawSucceeded then
      TriggerOutcome(TriggerResponse(Success, TriggerSuccessText),
                     if user.Some? then Some(RunInsert(user.value.id, title)) else None)
    else
      TriggerOutcome(TriggerResponse(Failure, TriggerFailureText), None)
  }

  class TriggerForm {
    var service: Service
    var formData: map<string, string>
    var isLoading: bool
    var response: Option<TriggerResponse>

    /** Mounting the form for `s`: the initial state, then the initialising effect. */
    constructor (s: Service)
      ensures service == s && formData == InitialFormData(s.inputFields)
      ensures !isLoading && response.None?
    {
      service := s;
      formData := InitialFormData(s.inputFields);
      isLoading := false;
      response := None;
    }

    /** The initialising effect re-runs when the catalog entry changes. */
    method ServiceChanged(s: Service)
      modifies this`service, this`formData
      ensures service == s && formData == InitialFormData(s.inputFields)
    {
      service := s;
      formData := InitialFormData(s.inputFields);
    }

    /** `handleInputChange`: the named key takes the typed value; every other key keeps its
        value, and no key disappears. */
    method InputChange(name: string, value: string)
      modifies this`formData
      ensures name in formData && formData[name] == value
      ensures formData.Keys == old(formData).Keys + {name}
      ensures forall k :: k in old(formData) && k != name ==> formData[k] == old(formData)[k]
    {
      formData := formData[name := value];
    }

    /** `handleSubmit` up to its wait: in flight, no response shown. The submit button and
        the inputs are disabled while in flight. */
    method SubmitStart()
      requires !isLoading
      modifies this`isLoading, this`response
      ensures isLoading && response.None?
    {
      isLoading := true;
      response := None;
    }

    /** `handleSubmit` after its wait, with the draw's outcome, the user seen at submit time
        and the answer of the log insert: shows the outcome's response, returns the run it
        asks to log, and lowers the in-flight flag. An insert error is only logged: the
        response does not depend on it. */
    method SubmitFinish(drawSucceeded: bool, user: Option<User>, insertError: Option<BackendError>)
      returns (logged: Option<RunInsert>)
      modifies this`isLoading, this`response
      ensures response == Some(SubmitOutcome(drawSucceeded, user, service.title).response)
      ensures logged == SubmitOutcome(drawSucceeded, user, service.title).logged
      ensures !isLoading
    {
      var outcome := SubmitOutcome(drawSucceeded, user, service.title);
      response := Some(outcome.response);
      logged := outcome.logged;
      isLoading := false;
    }

    /** The window keydown listener: it invokes `onClose` for the Escape key only. */
    method KeyDown(key: string) returns (close: bool)
      ensures close <==> key == EscapeKey
    {
      close := key == EscapeKey;
    }
  }
}
