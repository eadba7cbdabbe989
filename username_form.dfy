/**
 * The username entry form (src/components/username-form/hooks.ts): its own
 * username validator, the error texts, and the form state that the change, blur
 * and submit handlers update. Storage, the auth context, the error tracker and
 * navigation appear as entries of an effect log; which of them throws is a
 * parameter of the submit.
 */
module UsernameForm {
  import opened Wrappers
  import opened Text
  import V = Validation

  const UsernameMinLength: nat := 3
  const UsernameMaxLength: nat := 20

  datatype ValidationError = Empty | TooShort | TooLong | InvalidChars

  /** Cyrillic а-я (U+0430 to U+044F) and А-Я (U+0410 to U+042F). */
  predicate IsCyrillicLetter(c: char) {
    ('\U{0430}' <= c <= '\U{044F}') || ('\U{0410}' <= c <= '\U{042F}')
  }

  /** The class `[a-zA-Zа-яА-Я0-9_-]`. */
  predicate IsUsernameChar(c: char) {
    V.IsUsernameChar(c) || IsCyrillicLetter(c)
  }

  function AllUsernameChars(s: string): (b: bool)
    ensures b <==> forall i :: 0 <= i < |s| ==> IsUsernameChar(s[i])
  {
    if s == [] then true
    else
      var rest := AllUsernameChars(s[1..]);
      assert forall i :: 1 <= i < |s| ==> s[i] == s[1..][i - 1];
      IsUsernameChar(s[0]) && rest
  }

  /** `null` is None; the checks run in order and the first failure is reported. */
  function ValidateUsername(username: string): (r: Option<ValidationError>)
    ensures r == Some(Empty) <==> username == ""
    ensures r == Some(TooShort) <==> username != "" && |username| < UsernameMinLength
    ensures r == Some(TooLong) <==> |username| > UsernameMaxLength
    ensures r == Some(InvalidChars) <==>
              && UsernameMinLength <= |username| <= UsernameMaxLength
              && exists i :: 0 <= i < |username| && !IsUsernameChar(username[i])
    ensures r == None <==>
              && UsernameMinLength <= |username| <= UsernameMaxLength
              && forall i :: 0 <= i < |username| ==> IsUsernameChar(username[i])
  {
    if username == "" then Some(Empty)
    else if |username| < UsernameMinLength then Some(TooShort)
    else if |username| > UsernameMaxLength then Some(TooLong)
    else if !AllUsernameChars(username) then Some(InvalidChars)
    else None
  }

  /** The text shown for an error; no error shows as "". */
  function GetErrorMessage(error: Option<ValidationError>): (m: string)
    ensures m == "" <==> error == None
  {
    match error
    case Some(Empty) => "The user name cannot be empty"
    case Some(TooShort) => "The user name must contain at least " + NatToString(UsernameMinLength) + " symbol"
    case Some(TooLong) => "The user name should not exceed " + NatToString(UsernameMaxLength) + " symbols"
    case Some(InvalidChars) => "The user name may contain only letters, numbers, hyphen and emphasizing"
    case None => ""
  }

  /** The interpolated bounds read 3 and 20, and different errors have different texts. */
  lemma ErrorMessagesDistinct(a: Option<ValidationError>, b: Option<ValidationError>)
    ensures GetErrorMessage(Some(TooShort)) == "The user name must contain at least 3 symbol"
    ensures GetErrorMessage(Some(TooLong)) == "The user name should not exceed 20 symbols"
    ensures GetErrorMessage(a) == GetErrorMessage(b) <==> a == b
  {
    assert NatToString(3) == "3";
    assert NatToString(20) == NatToString(2) + [DigitChar(0)];
    var e := GetErrorMessage(Some(Empty));
    var s := GetErrorMessage(Some(TooShort));
    var l := GetErrorMessage(Some(TooLong));
    var c := GetErrorMessage(Some(InvalidChars));
    assert |e| == 29 && |s| == 44 && |l| == 42 && |c| == 71;
  }

  /**
   * Without Cyrillic letters this validator accepts exactly what the shared
   * validator with its default bounds accepts, for the same reasons.
   */
  lemma AgreesWithSharedValidatorWithoutCyrillic(username: string)
    requires forall i :: 0 <= i < |username| ==> !IsCyrillicLetter(username[i])
    ensures ValidateUsername(username) == None <==> V.ValidateUsername(username).isValid
    ensures ValidateUsername(username) == Some(Empty) <==> V.ValidateUsername(username).error == Some("Username cannot be empty")
  {
  }

  /** The form accepts a Cyrillic name that the shared validator rejects. */
  lemma CyrillicNameOnlyHere()
    ensures ValidateUsername("\U{0418}\U{0432}\U{0430}\U{043D}") == None
    ensures !V.ValidateUsername("\U{0418}\U{0432}\U{0430}\U{043D}").isValid
  {
    var name := "\U{0418}\U{0432}\U{0430}\U{043D}";
    assert !V.IsUsernameChar(name[0]);
  }

  /** What the handlers hand to the code around the form. */
  datatype Effect =
    | StoreUsername(name: string)
    | Login(name: string)
    | SetTrackedUser(name: string)
    | LogWarn(message: string, username: string, validationError: ValidationError)
    | LogInfo(message: string)
    | LogError(message: string, username: string)
    | ConsoleError(message: string)
    | NavigateHome

  /** The calls of a valid submit, in order; any of them may throw. */
  datatype SubmitStep = StoreStep | LoginStep | SetUserStep | LogInfoStep | NavigateStep

  function StepIndex(step: SubmitStep): (k: nat)
    ensures k < 5
  {
    match step
    case StoreStep => 0
    case LoginStep => 1
    case SetUserStep => 2
    case LogInfoStep => 3
    case NavigateStep => 4
  }

  /** A call that throws, and the thrown value's message when it is an Error. */
  datatype Throw = Throw(step: SubmitStep, errorMessage: Option<string>)

  /** The effects of the five calls of a valid submit, all of them completing. */
  function SubmitSteps(trimmed: string): (r: seq<Effect>)
    ensures |r| == 5
  {
    [StoreUsername(trimmed), Login(trimmed), SetTrackedUser(trimmed),
     LogInfo("User " + trimmed + " entered the chat"), NavigateHome]
  }

  /** The warning logged for an invalid name. */
  function WarnEffect(trimmed: string, e: ValidationError): (fx: Effect)
    ensures fx.LogWarn? && fx.username == trimmed && fx.validationError == e
  {
    LogWarn("Validation error: " + GetErrorMessage(Some(e)), trimmed, e)
  }

  /** The error log and console line of the catch block. */
  function FailureEffects(trimmed: string, t: Throw): (fx: seq<Effect>)
    ensures |fx| == 2 && fx[0].LogError? && fx[0].username == trimmed && fx[1].ConsoleError?
  {
    [LogError("Error when setting user name: " + t.errorMessage.GetOr("Unknown error"), trimmed),
     ConsoleError("Error when setting user name:")]
  }

  /** The effects of a submit of `trimmed`, given which call (if any) throws. */
  function SubmitEffects(trimmed: string, failure: Option<Throw>): seq<Effect> {
    match ValidateUsername(trimmed)
    case Some(e) => [WarnEffect(trimmed, e)]
    case None =>
      match failure
      case None => SubmitSteps(trimmed)
      case Some(t) =>
        SubmitSteps(trimmed)[..StepIndex(t.step)] + FailureEffects(trimmed, t)
  }

  /** An invalid name is only logged as a warning: nothing is stored and nobody logs in. */
  lemma InvalidSubmitStoresNothing(trimmed: string, failure: Option<Throw>)
    requires ValidateUsername(trimmed).Some?
    ensures SubmitEffects(trimmed, failure)
            == [WarnEffect(trimmed, ValidateUsername(trimmed).value)]
    ensures forall k :: 0 <= k < |SubmitEffects(trimmed, failure)| ==>
              !SubmitEffects(trimmed, failure)[k].StoreUsername? && !SubmitEffects(trimmed, failure)[k].Login?
  {
  }

  /**
   * A valid name is stored and logged in before anything else, in that order; with
   * no throw, the user is tracked, greeted in the log and sent home.
   */
  lemma ValidSubmitUsesTrimmedName(trimmed: string, failure: Option<Throw>)
    requires ValidateUsername(trimmed) == None
    ensures var fx := SubmitEffects(trimmed, failure);
            && (failure.None? ==> fx == SubmitSteps(trimmed) && fx[|fx| - 1] == NavigateHome)
            && (failure.None? || StepIndex(failure.value.step) > 0 ==> fx[0] == StoreUsername(trimmed))
            && (failure.None? || StepIndex(failure.value.step) > 1 ==> fx[1] == Login(trimmed))
            && (failure.Some? ==>
                  |fx| == StepIndex(failure.value.step) + 2
                  && fx[|fx| - 2].LogError? && fx[|fx| - 2].username == trimmed
                  && NavigateHome !in fx)
  {
    match failure
    case None =>
    case Some(t) =>
      var fx := SubmitEffects(trimmed, failure);
      var k := StepIndex(t.step);
      assert forall j :: 0 <= j < k ==> fx[j] == SubmitSteps(trimmed)[j];
      assert NavigateHome !in SubmitSteps(trimmed)[..k];
  }

  /** validateInput: the trimmed value's error. */
  function ValidateInput(value: string): Option<ValidationError> {
    ValidateUsername(Trim(value))
  }

  /** The form's state, with the log of effects handed out so far. */
  class UsernameForm {
    var input: string
    var error: Option<ValidationError>
    var isSubmitting: bool
    var isTouched: bool
    var effects: seq<Effect>

    /** The error shown is that of the trimmed input once the field is touched, and none before. */
    predicate Valid()
      reads this
    {
      && !isSubmitting
      && (isTouched ==> error == ValidateInput(input))
      && (!isTouched ==> error == None)
    }

    /** Mounting the form: empty state, then the saved name (when non-empty) fills the input. */
    constructor (saved: Option<string>)
      ensures Valid()
      ensures input == (if saved.Some? && saved.value != "" then saved.value else "")
      ensures error == None && !isTouched && !isSubmitting && effects == []
    {
      input := if saved.Some? && saved.value != "" then saved.value else "";
      error := None;
      isSubmitting := false;
      isTouched := false;
      effects := [];
    }

    /** The raw value is kept; the error is recomputed only once the field is touched. */
    method HandleChange(newValue: string)
      requires Valid()
      modifies this`input, this`error
      ensures Valid()
      ensures input == newValue
      ensures error == (if isTouched then ValidateInput(newValue) else old(error))
    {
      input := newValue;
      if isTouched {
        error := ValidateInput(newValue);
      }
    }

    method HandleBlur()
      requires Valid()
      modifies this`isTouched, this`error
      ensures Valid()
      ensures isTouched && error == ValidateInput(input)
    {
      isTouched := true;
      error := ValidateInput(input);
    }

    /**
     * Validate the trimmed input and show its error; a valid name goes to storage and
     * login trimmed while the input keeps its raw text. A throwing call ends the
     * sequence with an error log, and the busy flag ends false either way.
     */
    method HandleSubmit(failure: Option<Throw>)
      requires Valid()
      modifies this`isTouched, this`error, this`isSubmitting, this`effects
      ensures Valid()
      ensures isTouched && error == ValidateInput(input)
      ensures input == old(input)
      ensures effects == old(effects) + SubmitEffects(Trim(input), failure)
    {
      var trimmed := Trim(input);
      var validationError := ValidateUsername(trimmed);
      isTouched := true;
      error := validationError;
      if validationError.Some? {
        effects := effects + [WarnEffect(trimmed, validationError.value)];
        return;
      }
      isSubmitting := true;
      var steps := SubmitSteps(trimmed);
      var done := if failure.Some? then StepIndex(failure.value.step) else 5;
      effects := effects + steps[..done];
      if failure.Some? {
        effects := effects + FailureEffects(trimmed, failure.value);
      }
      isSubmitting := false;
    }

  }
}
