/** The state of the `App` component (src/App.jsx): the form's values, the errors
    react-hook-form records, and the `answer` shown under the form. */
module Component {
  import opened Form
  import opened PromptBuilder

  datatype Option<T> = None | Some(value: T)

  /** What came back from the completion service, standing in for the request.
      `Failure`: the request or the decoding of its reply threw. `Reply(texts)`: the
      decoded reply, with the `text` of each entry of its `choices` list, in order
      ("" for an entry without text); a reply without a `choices` list has none. */
  datatype Outcome = Failure | Reply(texts: seq<string>)

  class App {
    var form: FormData
    var errors: Errors
    var answer: string
    /** Whether a submission has reached react-hook-form since the last reset; from then
        on it re-validates each field when it changes. */
    var submitted: bool

    /** Before any submission no error is recorded; after one, the recorded errors are
        always those of the current values. */
    predicate Consistent()
      reads this
    {
      errors == (if submitted then ErrorsAfterSubmit(form) else NoErrors)
    }

    /** The panel with the answer and its copy button is shown exactly when `answer`
        is not empty (an empty string is falsy). */
    predicate ResultShown()
      reads this
    {
      answer != ""
    }

    /** The component as first rendered: empty fields, no error, no answer. */
    constructor()
      ensures form == EmptyForm && errors == NoErrors && answer == "" && !submitted
      ensures !ResultShown() && Consistent()
    {
      form := EmptyForm;
      errors := NoErrors;
      answer := "";
      submitted := false;
    }

    /** The user changes the fields. After a submission, react-hook-form validates the
        changed values again (its default `reValidateMode` is "onChange"). */
    method Edit(f: FormData)
      requires Consistent()
      modifies this
      ensures form == f && submitted == old(submitted) && answer == old(answer)
      ensures errors == (if submitted then ErrorsAfterSubmit(f) else old(errors))
      ensures Consistent()
    {
      form := f;
      if submitted {
        errors := ErrorsAfterSubmit(f);
      }
    }

    /** `resetForm`: the form's values and errors go back to their defaults and the
        answer is cleared, which hides the result panel. */
    method Reset()
      modifies this
      ensures form == EmptyForm && errors == NoErrors && answer == "" && !submitted
      ensures !ResultShown() && Consistent()
    {
      form := EmptyForm;
      errors := NoErrors;
      answer := "";
      submitted := false;
    }

    /** `onSubmit`: sends the prompt built from the form's values and stores the first
        choice's text; any failure, including a reply without choices, is caught and
        leaves the answer as it was. */
    method OnSubmit(outcome: Outcome) returns (prompt: string)
      modifies this
      ensures prompt == Prompt(form)
      ensures form == old(form) && errors == old(errors) && submitted == old(submitted)
      ensures outcome.Reply? && outcome.texts != [] ==> answer == outcome.texts[0]
      ensures (outcome.Failure? || outcome.texts == []) ==> answer == old(answer)
    {
      prompt := GeneratePrompt(Texts, form);
      match outcome {
        case Failure =>
        case Reply(texts) =>
          if texts != [] {
            answer := texts[0];
          }
      }
    }

    /** A press on the submit button. The browser checks its constraints first and
        does nothing when they fail; react-hook-form then records the errors of its
        rules and calls `onSubmit` only when there are none. `sent` is the prompt
        sent, if any. */
    method Submit(outcome: Outcome) returns (sent: Option<string>)
      requires Consistent()
      modifies this
      ensures form == old(form) && Consistent()
      ensures submitted == (old(submitted) || BrowserAccepts(form))
      ensures errors == (if BrowserAccepts(form) then ErrorsAfterSubmit(form) else old(errors))
      ensures sent == (if FormValid(form) then Some(Prompt(form)) else None)
      ensures !FormValid(form) ==> answer == old(answer)
      ensures FormValid(form) && outcome.Reply? && outcome.texts != [] ==>
        answer == outcome.texts[0]
      ensures (outcome.Failure? || outcome.texts == []) ==> answer == old(answer)
      ensures BrowserAccepts(form) ==>
        (ApiKeyIndicator(errors.apiKey, form.apiKey) == Valid <==> ApiKeyValid(form.apiKey))
    {
      sent := None;
      if !BrowserAccepts(form) {
        return;
      }
      submitted := true;
      errors := ErrorsAfterSubmit(form);
      ApiKeyIndicatorAfterSubmit(form);
      SubmitGate(form);
      if errors != NoErrors {
        return;
      }
      var prompt := OnSubmit(outcome);
      sent := Some(prompt);
    }
  }

  /** A run of the component: a valid form is submitted and answered, then a second
      submission fails, then the form is reset. */
  method Session(f: FormData, text: string) returns (app: App)
    requires FormValid(f) && text != ""
    ensures app.answer == "" && app.form == EmptyForm && !app.ResultShown()
    ensures app.errors == NoErrors && !app.submitted
  {
    app := new App();
    app.Edit(f);
    var sent := app.Submit(Reply([text]));
    assert sent == Some(Prompt(f));
    assert app.answer == text && app.ResultShown();
    assert app.submitted && app.errors == NoErrors;
    sent := app.Submit(Failure);
    assert app.answer == text;
    app.Reset();
  }
}
