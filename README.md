# malt-responder: the `App` component, modelled in Dafny

malt-responder is a single-page form. A freelancer pastes an offer from the Malt
platform, adds their name, an optional phone number and an API key, and chooses the
kind of reply: a quote ("Devis") or a call ("Appel"). The component builds a French
prompt from these values, sends it to a text-completion service, and shows the
first text that comes back. The page also offers a button to copy that text.

This project models the logic of that component (src/App.jsx):

- `text.dfy`, module `Text`: the string facts the model needs. These are
  occurrence (`OccursAt`, `Contains`), suffix (`EndsWith`), and the length
  JavaScript reports, which counts UTF-16 code units (`Utf16Length`).
- `form.dfy`, module `Form`: the five form fields and the rules they are registered
  with. It also covers what the browser checks before a submission, the errors
  react-hook-form records, and the `aria-invalid` indicators of the inputs.
- `prompt.dfy`, module `PromptBuilder`: `generatePrompt`.
  - The template's constant pieces form a `Wording`. The source's own wording is
    `Texts`, copied verbatim with its line breaks and indentation.
    `Prompt(d) == PromptOf(Texts, d)` is the prompt the source builds.
  - The theorems are proved for any wording of the template's shape (`WellFormed`).
    `TextsWellFormed` proves that the source's wording has that shape.
  - Each theorem is then stated for `Texts`. It states a named predicate
    (`FieldsInPlace`, `EndingsMatch`, `QuoteOnly`, `CallOnly`, `NoClause`) of
    `Texts` and the form's values.
- `component.dfy`, module `Component`: the component's state as a class `App`, with
  the form's values, the recorded errors and `answer`. Its operations are editing,
  resetting (`resetForm`) and submitting (`handleSubmit(onSubmit)`). The
  completion service is replaced by an `Outcome` parameter: either the call throws,
  or it returns the texts of the reply's choices.

Two points of the code shape the model:

- react-hook-form records errors when a submission reaches `handleSubmit`. From then
  on it validates each field again when it changes (its defaults are `mode: "onSubmit"`
  and `reValidateMode: "onChange"`), until `reset` clears the form. It has no rule for
  the phone field: the phone's pattern and length are left to the browser.
- Only a successful reply replaces `answer`; a failed request leaves it unchanged.

## Model

| member | source | states |
|---|---|---|
| Text.Utf16Length | src/App.jsx:144 | `value.length` counts UTF-16 code units: at least one and at most two per character, and zero only for the empty string |
| Text.BasicPlaneLength | src/App.jsx:144 | without characters outside the basic plane, the JavaScript length is the number of characters |
| Form.NameValid | src/App.jsx:108 | the name rule (`required: true`): any non-empty name |
| Form.TelValid | src/App.jsx:119-125 | the phone rule: the field is optional, and a typed value must match the anchored `pattern` `[0-9]+` and have 10 to 20 code units (`minLength`, `maxLength`) |
| Form.ApiKeyValid | src/App.jsx:135-139 | the key rule: required, with at least and at most 51 code units |
| Form.OfferTypeValid | src/App.jsx:161-174 | the kind-of-reply rule: both radio buttons register `offerType` as required, so one must be chosen |
| Form.OfferValid | src/App.jsx:189-192 | the offer rule: required, and at least 150 code units (the textarea's `minLength`) |
| Form.FormValid | src/App.jsx:108-192 | the form is valid when all five rules hold |
| Form.BrowserAccepts | src/App.jsx:119-192 | the browser lets the form be submitted exactly when the phone value meets its attributes and the offer is empty or has at least 150 code units (`minLength` is not applied to an empty textarea) |
| Form.RulesHold | src/App.jsx:108-189 | the rules react-hook-form is registered with: name, key, kind of reply and offer required, and the key exactly 51 code units long |
| Form.DigitsLength | src/App.jsx:120 | a value matching the digit pattern has one code unit per character |
| Form.TelValidIff | src/App.jsx:119-125 | the phone number is valid exactly when it is empty, or consists of 10 to 20 digits (the `pattern` is anchored and a digit is one code unit) |
| Form.ApiKeyValidIff | src/App.jsx:135-139 | the key is valid exactly when its length is 51, since "required" is implied by the length rules; in characters, exactly 51 when there are no astral characters |
| Form.OfferValidIff | src/App.jsx:189-192 | the offer is valid exactly when its length is at least 150 code units; for basic-plane text that is at least 150 characters, and at least 75 characters in any case |
| Form.SubmitGate | src/App.jsx:108-192 | the browser's constraints (phone attributes, textarea `minLength`, which does not apply to an empty textarea) together with the registered rules are exactly the five rules; the registered rules hold exactly when a submit attempt records no error |
| Form.ErrorsAfterSubmit | src/App.jsx:108-192 | after a submit attempt, a name, key or kind-of-reply error is recorded exactly when that field breaks its rule; no phone error is ever recorded; an offer error only for an empty offer (lines 119, 135-139, 161, 174, 189) |
| Form.FieldIndicator | src/App.jsx:112-126 | `aria-invalid` of the name and phone inputs: "true" on a recorded error, otherwise "false" once something is typed, otherwise "" |
| Form.ApiKeyIndicator | src/App.jsx:140-148 | `aria-invalid` of the key input: "true" on a recorded error; otherwise, for a typed key, "false" at 51 code units and "true" at any other length; "" for an empty field |
| Form.ChoiceIndicator | src/App.jsx:165 | the radio buttons and the textarea never show "false" (lines 178, 191) |
| Form.ApiKeyIndicatorMeaning | src/App.jsx:140-148 | the key indicator is "false" exactly when no error is recorded and the key has 51 code units, "" exactly when no error is recorded and the field is empty, and "true" exactly when an error is recorded or a non-empty key has another length |
| Form.ApiKeyIndicatorAfterSubmit | src/App.jsx:135-148 | after a submit attempt the key indicator is never "" and is "false" exactly when the key is valid |
| Form.NameIndicatorAfterSubmit | src/App.jsx:108-112 | after a submit attempt the name indicator is "false" exactly when the name is valid and "true" exactly when it is not |
| Form.TelIndicatorAcceptsLetters | src/App.jsx:119-126 | as written: for the phone value "abc", after a submit attempt, the indicator shows "false" although the phone rule fails |
| Form.TelIndicator | src/App.jsx:126 | corrected phone indicator: like the key indicator, it checks the phone rule itself, so a typed value that breaks the rule shows "true" |
| Form.TelIndicatorMeaning | src/App.jsx:119-126 | corrected phone indicator: "false" exactly when no error is recorded, something is typed and the phone rule holds; "" exactly when no error is recorded and the field is empty |
| PromptBuilder.Slot | src/App.jsx:32-34 | the phone slot: the phone value when it is truthy (not empty), otherwise "Non renseigné" |
| PromptBuilder.Base | src/App.jsx:26-38 | the template literal with the offer text, the name and the phone slot filled in |
| PromptBuilder.Branch | src/App.jsx:40-45 | the clause the kind of reply chooses: the quote clause for "Devis", the call clause for "Appel", nothing for any other value |
| PromptBuilder.PromptOf | src/App.jsx:25-46 | the prompt for a wording: the filled template followed by the chosen clause |
| PromptBuilder.Prompt | src/App.jsx:25-46 | the prompt `generatePrompt` returns: `PromptOf` for the source's wording |
| PromptBuilder.GeneratePrompt | src/App.jsx:25-46 | starting from the filled template and appending in place, the method yields exactly the prompt `PromptOf(w, d)`, for whose source wording the lemmas below hold |
| PromptBuilder.LayoutOf | src/App.jsx:26-39 | for any wording, the prompt starts with the preamble and holds the offer text, the name and the phone slot verbatim at their positions, between the template pieces around them; the slot is the phone number when one was typed, otherwise the placeholder |
| PromptBuilder.PromptLayout | src/App.jsx:26-39 | the same for the source's wording: the prompt opens with "J'ai reçu une offre de travail…", and the slot is "Non renseigné" when the phone field is empty (lines 32-34) |
| PromptBuilder.BranchesOf | src/App.jsx:39-45 | the filled template is a prefix of the prompt; "Devis" appends exactly the quote clause, "Appel" exactly the call clause, any other value nothing |
| PromptBuilder.BaseEnding | src/App.jsx:38-39 | the filled template ends with a line break followed by four spaces |
| PromptBuilder.EndingsOf | src/App.jsx:40-45 | for any well-formed wording, the prompt ends with the quote clause exactly when "Devis" is chosen, and with the call clause exactly when "Appel" is chosen |
| PromptBuilder.PromptEndings | src/App.jsx:40-45 | the same for the source's wording |
| PromptBuilder.ClauseOccurrenceOf | src/App.jsx:39-45 | no occurrence of a clause runs from the template into the appended clause: a clause occurs in the prompt exactly when it occurs in the filled template or in the appended clause |
| PromptBuilder.QuoteExcludesCallOf | src/App.jsx:40-41 | when "Devis" is chosen, the call clause occurs in the prompt exactly when it occurs in the filled template |
| PromptBuilder.CallExcludesQuoteOf | src/App.jsx:42-43 | when "Appel" is chosen, the quote clause occurs in the prompt exactly when it occurs in the filled template |
| PromptBuilder.BaseLacks | src/App.jsx:26-38 | the filled template lacks any character that neither its fixed text nor the typed values have |
| PromptBuilder.QuoteLacksCallOf | src/App.jsx:40-41 | when "Devis" is chosen, the call clause does not occur in the prompt at all when its first character appears neither in the fixed text nor in the typed values |
| PromptBuilder.CallLacksQuoteOf | src/App.jsx:42-43 | when "Appel" is chosen, the quote clause does not occur in the prompt at all when its first character appears neither in the fixed text nor in the typed values |
| PromptBuilder.QuoteBranchOf | src/App.jsx:40-41 | "Devis": the prompt is the template followed by the quote clause, ends with it and not with the call clause, and the call clause occurs only where it occurs in the template |
| PromptBuilder.CallBranchOf | src/App.jsx:42-43 | "Appel": the prompt is the template followed by the call clause, ends with it and not with the quote clause, and the quote clause occurs only where it occurs in the template |
| PromptBuilder.OtherBranchOf | src/App.jsx:40-45 | any other value: the prompt is exactly the filled template, ending with neither clause |
| PromptBuilder.QuotePromptExcludesCall | src/App.jsx:40-41 | `QuoteBranchOf` for the source's wording |
| PromptBuilder.CallPromptExcludesQuote | src/App.jsx:42-43 | `CallBranchOf` for the source's wording |
| PromptBuilder.QuotePromptLacksCall | src/App.jsx:26-41 | the "Devis" prompt does not contain the call clause, provided that no typed value (offer, name, phone) has a capital 'P' |
| PromptBuilder.CallPromptLacksQuote | src/App.jsx:26-43 | the "Appel" prompt does not contain the quote clause, under the same proviso |
| PromptBuilder.OtherPromptHasNoClause | src/App.jsx:40-45 | `OtherBranchOf` for the source's wording: no fallback clause is appended |
| PromptBuilder.QuoteClauseShape | src/App.jsx:41 | the quote clause is a single line, neither starting nor ending with a space, 70 characters long, opens with 'P' and has a 'c' |
| PromptBuilder.CallClauseShape | src/App.jsx:43 | the call clause is a single line, neither starting nor ending with a space, 160 characters long, opens with 'P' and has no 'c' |
| PromptBuilder.CallClauseMentions | src/App.jsx:43 | the call clause mentions the phone number ("numéro de téléphone") and two appointment slots ("deux disponibilités") |
| PromptBuilder.ClausesDistinct | src/App.jsx:41-43 | neither clause occurs inside the other |
| PromptBuilder.InstructionsEnding | src/App.jsx:38-39 | the template literal closes with a line break and four spaces of indentation |
| PromptBuilder.TextsLackP | src/App.jsx:26-43 | both clauses open with a capital 'P', and the template's fixed text (including the placeholder "Non renseigné") has none |
| PromptBuilder.TextsWellFormed | src/App.jsx:26-43 | the source's wording has the shape the generic theorems require |
| Component.App.ResultShown | src/App.jsx:214 | the panel with the answer and its copy button is shown exactly when `answer` is not empty |
| Component.App.Consistent | src/App.jsx:13-19 | no error is recorded before a submission reaches react-hook-form; after one, the recorded errors are always those of the current values |
| Component.App.constructor | src/App.jsx:8-19 | initially the fields are empty, no error is recorded, no submission has happened, `answer` is "" and the result panel is hidden |
| Component.App.Edit | src/App.jsx:104-195 | editing sets the form's values and leaves `answer` alone; before any submission the errors stay as they were, after one they become the errors of the new values |
| Component.App.Reset | src/App.jsx:9-12 | reset clears the fields, the errors, the record of a submission and `answer`, which hides the result panel (line 214) |
| Component.App.OnSubmit | src/App.jsx:48-73 | the handler sends exactly the prompt of the form's values; a reply with choices sets `answer` to the first choice's text; a failure or a reply without choices leaves `answer` unchanged; the fields and errors are untouched |
| Component.App.Submit | src/App.jsx:48-73 | a submission sends the prompt exactly when the form is valid. The errors are recorded exactly when the browser accepts the form. `answer` changes only for a valid form with a reply that has choices, and then to the first choice's text. A submission the browser accepts is remembered, and the errors stay those of the current values. When the browser accepts the form, the key indicator afterwards says "false" exactly when the key is valid |
| Component.Session | src/App.jsx:8-73 | after a valid form is answered, a failed resubmission and a reset leave no answer, no error, no record of a submission and the result panel hidden (line 214) |

## Left out

- The request itself is not modelled: `fetch`, the JSON body, the model name, `max_tokens`, `temperature`, the headers (including the key in `Authorization`), and `response.json()` (src/App.jsx:51-66). It is network I/O. The model sees only its `Outcome`: the call throws, or it returns the texts of the choices.
- A choice whose `text` is missing would set `answer` to `undefined`, which is falsy. The model writes it as the empty text, "".
- A field value that is `undefined` or `null` is written as "". Both are falsy and fail the same rules. A submitted form never has an empty name or offer, so the literal text "undefined" never reaches the prompt.
- react-hook-form's internals are not modelled (`useForm`, `register`, `watch`, `handleSubmit`, `reset`). Only the rules it is configured with are encoded, together with its default re-validation on change after a submission. It re-validates only the edited field, but the other fields then keep errors that already match their unchanged values, so `Edit` recomputes all of them.
- The browser checks `minLength` and `maxLength` only on values the user edited; a `pattern` mismatch counts for any non-empty value. The model applies all three to every value of the form.
- `maxLength={20}` stops the user from typing more than 20 characters. The model treats it as a rule on the value.
- `navigator.clipboard.writeText` (src/App.jsx:75-77) is not modelled: it is a foreign API with an effect outside the program. The copy button is covered only by being part of the result panel, which `ResultShown` models.
- The markup, CSS and asset imports are not modelled, except the `answer &&` condition at line 214 (`ResultShown`).
- The submission is asynchronous in the source, and nothing guards against a second submission while one is pending. Each `Submit` runs to completion before the next, so interleaved requests are not modelled.
- `console.error` (src/App.jsx:71) is logging, and the model does not represent it.
- QuotePromptExcludesCall: states that the call clause occurs in the "Devis" prompt only where it occurs in the filled template. It does not state that the call clause is absent outright, since the user's offer text, name or phone value may contain it verbatim; `QuotePromptLacksCall` states absence for typed values without a capital 'P'.
- CallPromptExcludesQuote: states the same for the quote clause in the "Appel" prompt; `CallPromptLacksQuote` states absence for typed values without a capital 'P'.
- QuotePromptLacksCall: requires that no typed value has a capital 'P'. That is enough for absence but more than needed; a value holding the whole clause is what would break it.
- CallPromptLacksQuote: the same proviso for the quote clause.
- CallClauseMentions: states that the call clause mentions a phone number and appointment slots. It does not state a link to the phone value typed in the form: the clause asks for the number in words.

## Findings

| source | as written | input that shows it | evidently intended | confidence | as-written member | corrected member |
|---|---|---|---|---|---|---|
| src/App.jsx:119-126 | `tel` is registered with no rule, so `errors.tel` is never set. The phone indicator therefore shows "false" (valid) for any non-empty value, even one the `pattern` rejects. | phone "abc", with a submit attempt | the indicator checks the phone rule itself, like the key indicator at lines 140-148 | not executed | Form.TelIndicatorAcceptsLetters | Form.TelIndicatorMeaning |
