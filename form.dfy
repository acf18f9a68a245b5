/** The five fields of the form, the rules each field is registered with, and the
    `aria-invalid` indicators the inputs display (src/App.jsx). */
module Form {
  import opened Text

  /** The values of the form fields, as handed to the submit handler. The keys of
      the source are `name`, `tel`, `API`, `offerType` and `Offre`. A value the
      source would see as `undefined` or `null` (an untouched field, no radio button
      chosen) is represented by "": both are falsy there and fail the same rules. */
  datatype FormData = FormData(
    name: string,
    tel: string,
    apiKey: string,
    offerType: string,
    offer: string)

  /** Every field empty: the form as first shown and after a reset. */
  const EmptyForm := FormData("", "", "", "", "")

  // The constants the rules are registered with.
  const TelMinLength := 10
  const TelMaxLength := 20
  const ApiKeyLength := 51
  const OfferMinLength := 150

  /** The two values of the radio buttons for the kind of reply. */
  const Quote := "Devis"
  const Call := "Appel"

  predicate IsDigit(c: char) {
    '0' <= c <= '9'
  }

  /** The input's `pattern="[0-9]+"`, which HTML anchors to the whole value. */
  predicate MatchesDigitPattern(s: string) {
    s != [] && forall i :: 0 <= i < |s| ==> IsDigit(s[i])
  }

  /** `name` is registered with `required: true`. */
  predicate NameValid(name: string) {
    name != ""
  }

  /** `tel` is optional; when filled in, the browser checks its `pattern`, `minLength`
      and `maxLength` attributes, which count UTF-16 code units. */
  predicate TelValid(tel: string) {
    tel == "" || (MatchesDigitPattern(tel) && TelMinLength <= Utf16Length(tel) <= TelMaxLength)
  }

  /** `API` is registered with `required: true, maxLength: 51, minLength: 51`. */
  predicate ApiKeyValid(key: string) {
    key != "" && ApiKeyLength <= Utf16Length(key) <= ApiKeyLength
  }

  /** Both radio buttons register `offerType` with `required: true`. */
  predicate OfferTypeValid(offerType: string) {
    offerType != ""
  }

  /** `Offre` is registered with `required: true`; the textarea adds `minLength={150}`. */
  predicate OfferValid(offer: string) {
    offer != "" && Utf16Length(offer) >= OfferMinLength
  }

  /** Every rule holds: the form is valid. */
  predicate FormValid(f: FormData) {
    && NameValid(f.name)
    && TelValid(f.tel)
    && ApiKeyValid(f.apiKey)
    && OfferTypeValid(f.offerType)
    && OfferValid(f.offer)
  }

  /** The constraints the browser checks before it lets the form be submitted: the
      attributes of the phone input, and the textarea's `minLength`, which the browser
      does not apply to an empty textarea. */
  predicate BrowserAccepts(f: FormData) {
    TelValid(f.tel) && (f.offer == "" || Utf16Length(f.offer) >= OfferMinLength)
  }

  /** The rules react-hook-form is registered with, checked once the browser has let
      the form be submitted; the submit handler runs only when they all hold. */
  predicate RulesHold(f: FormData) {
    NameValid(f.name) && ApiKeyValid(f.apiKey) && OfferTypeValid(f.offerType) && f.offer != ""
  }

  /** A digit is a single UTF-16 code unit. */
  lemma DigitsLength(s: string)
    requires MatchesDigitPattern(s)
    ensures Utf16Length(s) == |s|
  {
    BasicPlaneLength(s);
  }

  /** The phone rule in terms of characters: empty, or 10 to 20 digits. */
  lemma TelValidIff(tel: string)
    ensures TelValid(tel) <==>
      tel == "" || ((forall i :: 0 <= i < |tel| ==> IsDigit(tel[i])) && 10 <= |tel| <= 20)
  {
    if tel != "" && forall i :: 0 <= i < |tel| ==> IsDigit(tel[i]) {
      DigitsLength(tel);
    }
  }

  /** The key rule: required is implied by the length rule, which asks for exactly
      51 code units; for a key without astral characters, exactly 51 characters. */
  lemma ApiKeyValidIff(key: string)
    ensures ApiKeyValid(key) <==> Utf16Length(key) == 51
    ensures (forall i :: 0 <= i < |key| ==> !IsAstral(key[i])) ==>
      (ApiKeyValid(key) <==> |key| == 51)
  {
    if forall i :: 0 <= i < |key| ==> !IsAstral(key[i]) {
      BasicPlaneLength(key);
    }
  }

  /** The offer rule: required is implied by the length rule, at least 150 code units;
      for text without astral characters, at least 150 characters. Astral characters
      count twice, so 75 characters are always needed. */
  lemma OfferValidIff(offer: string)
    ensures OfferValid(offer) <==> Utf16Length(offer) >= 150
    ensures (forall i :: 0 <= i < |offer| ==> !IsAstral(offer[i])) ==>
      (OfferValid(offer) <==> |offer| >= 150)
    ensures OfferValid(offer) ==> |offer| >= 75
  {
    if forall i :: 0 <= i < |offer| ==> !IsAstral(offer[i]) {
      BasicPlaneLength(offer);
    }
  }

  /** The three values of an `aria-invalid` attribute as the inputs set it. */
  datatype Indicator = Invalid | Valid | Unset {
    /** The attribute's text. */
    function Attribute(): string {
      match this
      case Invalid => "true"
      case Valid => "false"
      case Unset => ""
    }
  }

  /** The errors react-hook-form records once a submit attempt has validated the
      fields against the rules they are registered with (before that attempt every
      entry is false). The HTML attributes on `tel` and `Offre` are not registered
      rules: `tel` never gets an error and `Offre` only when it is empty. */
  datatype Errors = Errors(name: bool, tel: bool, apiKey: bool, offerType: bool, offer: bool)

  function ErrorsAfterSubmit(f: FormData): (e: Errors)
    ensures e.name <==> !NameValid(f.name)
    ensures e.apiKey <==> !ApiKeyValid(f.apiKey)
    ensures e.offerType <==> !OfferTypeValid(f.offerType)
    ensures !e.tel
    ensures e.offer <==> f.offer == ""
  {
    Errors(
      name := f.name == "",
      tel := false,
      apiKey := f.apiKey == "" || Utf16Length(f.apiKey) != ApiKeyLength,
      offerType := f.offerType == "",
      offer := f.offer == "")
  }

  /** No error recorded: before any submit attempt and after a reset. */
  const NoErrors := Errors(false, false, false, false, false)

  /** The submit handler runs exactly when the form is valid: the browser's constraints
      and the registered rules together are the five rules, and the registered rules
      hold exactly when the attempt records no error. */
  lemma SubmitGate(f: FormData)
    ensures FormValid(f) <==> BrowserAccepts(f) && RulesHold(f)
    ensures RulesHold(f) <==> ErrorsAfterSubmit(f) == NoErrors
  {
  }

  /** `aria-invalid` of the name and phone inputs: "true" on a recorded error,
      otherwise "false" once something is typed, otherwise "". */
  function FieldIndicator(hasError: bool, value: string): Indicator {
    if hasError then Invalid else if value != "" then Valid else Unset
  }

  /** `aria-invalid` of the key input: it also checks the length itself, so the
      indicator reacts while typing, before any submit attempt. */
  function ApiKeyIndicator(hasError: bool, value: string): Indicator {
    if hasError then Invalid
    else if value != "" then (if Utf16Length(value) == ApiKeyLength then Valid else Invalid)
    else Unset
  }

  /** `aria-invalid` of the radio buttons and of the offer textarea: "true" on a
      recorded error, "" otherwise. */
  function ChoiceIndicator(hasError: bool): (r: Indicator)
    ensures r != Valid
  {
    if hasError then Invalid else Unset
  }

  /** The key indicator shows "false" exactly when no error is recorded and the key
      satisfies its rule, and "" exactly when no error is recorded and nothing is typed. */
  lemma ApiKeyIndicatorMeaning(hasError: bool, value: string)
    ensures ApiKeyIndicator(hasError, value) == Valid <==> !hasError && ApiKeyValid(value)
    ensures ApiKeyIndicator(hasError, value) == Unset <==> !hasError && value == ""
    ensures ApiKeyIndicator(hasError, value).Attribute() == "true" <==>
      hasError || (value != "" && !ApiKeyValid(value))
  {
  }

  /** After a submit attempt the key indicator is never blank and says "false"
      exactly when the key is valid. */
  lemma ApiKeyIndicatorAfterSubmit(f: FormData)
    ensures ApiKeyIndicator(ErrorsAfterSubmit(f).apiKey, f.apiKey) != Unset
    ensures ApiKeyIndicator(ErrorsAfterSubmit(f).apiKey, f.apiKey) == Valid <==> ApiKeyValid(f.apiKey)
  {
  }

  /** After a submit attempt the name indicator says "false" exactly when the name is
      valid, and "true" otherwise. */
  lemma NameIndicatorAfterSubmit(f: FormData)
    ensures FieldIndicator(ErrorsAfterSubmit(f).name, f.name) == Valid <==> NameValid(f.name)
    ensures FieldIndicator(ErrorsAfterSubmit(f).name, f.name) == Invalid <==> !NameValid(f.name)
  {
  }

  /** The phone indicator as written: no rule is registered for `tel`, so a phone
      number with letters in it is shown as valid, even after a submit attempt. */
  lemma TelIndicatorAcceptsLetters()
    ensures var f := FormData("Alice", "abc", "", "", "");
      FieldIndicator(ErrorsAfterSubmit(f).tel, f.tel) == Valid && !TelValid(f.tel)
  {
    var f := FormData("Alice", "abc", "", "", "");
    assert !IsDigit(f.tel[0]);
  }

  /** The phone indicator as evidently intended: like the key indicator, it checks the
      phone rule itself. */
  function TelIndicator(hasError: bool, value: string): Indicator {
    if hasError then Invalid
    else if value != "" then (if TelValid(value) then Valid else Invalid)
    else Unset
  }

  /** The corrected phone indicator shows "false" exactly when no error is recorded,
      something is typed and the phone rule holds. */
  lemma TelIndicatorMeaning(hasError: bool, value: string)
    ensures TelIndicator(hasError, value) == Valid <==> !hasError && value != "" && TelValid(value)
    ensures TelIndicator(hasError, value) == Unset <==> !hasError && value == ""
  {
  }
}
