/**
 * src/pages/Questions/components/CreateQuestionModal/index.tsx: the form that
 * creates a question. The form's values, the `loading` flag, the parent's
 * `isOpenCreate` flag (`open`) and the number of parent callbacks fired are
 * the state; the POST's result is the `outcome` argument.
 */
module CreateQuestion {
  import opened Wrappers
  import opened Fetch
  import opened QuestionTypes

  datatype OptionRow = OptionRow(text_en: string, text_vi: string)

  datatype FormData = FormData(
    question_en: string,
    question_vi: string,
    example_en: string,
    example_vi: string,
    question_type: string,
    options: seq<OptionRow>)

  const EMPTY_OPTION := OptionRow("", "")

  /** Empty texts, no question type, and one empty option row. */
  const DEFAULT_FORM := FormData("", "", "", "", "", [EMPTY_OPTION])

  /** The JSON body of the POST. */
  datatype Payload = Payload(
    question_en: string,
    question_vi: string,
    example_en: string,
    example_vi: string,
    question_variant_name: string,
    question_variant_options: seq<OptionRow>)

  const MISSING_TYPE_ALERT := "Please select question type"
  const NO_OPTIONS_ALERT := "Please add at least one option for multiple choice questions"
  const CREATE_ALERT := "Error creating question"

  /** The payload built from the submitted form; options travel only for multiple choice. */
  function BuildPayload(f: FormData): Payload {
    Payload(f.question_en, f.question_vi, f.example_en, f.example_vi, f.question_type,
            if f.question_type == MULTIPLE_CHOICE then f.options else [])
  }

  /** How `onSubmit` ends before the request: one of its two early returns, or the request it sends. */
  datatype SubmitCheck = MissingType | NoOptions | Ready(payload: Payload)

  function CheckSubmit(f: FormData): SubmitCheck {
    if f.question_type == "" then MissingType
    else if f.question_type == MULTIPLE_CHOICE && |f.options| == 0 then NoOptions
    else Ready(BuildPayload(f))
  }

  /** The alert `onSubmit` raises, if any. */
  function SubmitAlert(check: SubmitCheck, outcome: Outcome): Option<string> {
    match check
    case MissingType => Some(MISSING_TYPE_ALERT)
    case NoOptions => Some(NO_OPTIONS_ALERT)
    case Ready(_) => if outcome == Succeeded then None else Some(CREATE_ALERT)
  }

  /**
   * The declared `required` rules the form checks before `onSubmit` runs: both
   * question texts and the type, and both texts of every option row, which are
   * rendered only for multiple choice.
   */
  predicate RulesHold(f: FormData) {
    && f.question_en != ""
    && f.question_vi != ""
    && f.question_type != ""
    && (f.question_type == MULTIPLE_CHOICE ==>
          forall i :: 0 <= i < |f.options| ==> f.options[i].text_en != "" && f.options[i].text_vi != "")
  }

  /**
   * A sent payload keeps the four texts and the type, and carries options
   * exactly for multiple choice, and then all of them and at least one.
   */
  lemma SentPayloadShape(f: FormData)
    requires CheckSubmit(f).Ready?
    ensures var p := CheckSubmit(f).payload;
      && p.question_en == f.question_en && p.question_vi == f.question_vi
      && p.example_en == f.example_en && p.example_vi == f.example_vi
      && p.question_variant_name == f.question_type && f.question_type != ""
      && (|p.question_variant_options| > 0 <==> f.question_type == MULTIPLE_CHOICE)
      && (f.question_type == MULTIPLE_CHOICE ==> p.question_variant_options == f.options)
  {
  }

  /**
   * Once the declared rules pass and the form keeps its one option row, both
   * early returns of `onSubmit` are unreachable: the request is always sent.
   */
  lemma RulesGuaranteeRequest(f: FormData)
    requires RulesHold(f) && |f.options| >= 1
    ensures CheckSubmit(f).Ready?
  {
  }

  /** A multiple-choice question with one fully written option passes the rules and is sent with it. */
  lemma OneFilledOptionIsSent(f: FormData)
    requires f.question_en != "" && f.question_vi != "" && f.question_type == MULTIPLE_CHOICE
    requires |f.options| == 1 && f.options[0].text_en != "" && f.options[0].text_vi != ""
    ensures RulesHold(f)
    ensures CheckSubmit(f) == Ready(BuildPayload(f))
    ensures BuildPayload(f).question_variant_options == f.options
  {
  }

  class CreateQuestionModal {
    var form: FormData
    var loading: bool
    /** The parent's `isOpenCreate`, set through `setIsOpenCreate`. */
    var open: bool
    /** How many times the parent's `callback` was invoked. */
    var callbacks: nat

    /** Between events: at least one option row, and no submit in progress. */
    predicate Valid()
      reads this
    {
      |form.options| >= 1 && !loading
    }

    constructor (open: bool)
      ensures Valid()
      ensures form == DEFAULT_FORM && !loading && this.open == open && callbacks == 0
    {
      form := DEFAULT_FORM;
      loading := false;
      this.open := open;
      callbacks := 0;
    }

    /**
     * `onSubmit` with the POST's outcome. The early returns send nothing and
     * alert; a sent request that succeeds resets the form, fires the callback
     * once and closes the modal; any other ending keeps the form and the modal
     * open. `loading` is false on every path.
     */
    method OnSubmit(outcome: Outcome) returns (sent: Option<Payload>, alert: Option<string>)
      modifies this`form, this`loading, this`open, this`callbacks
      ensures sent == if CheckSubmit(old(form)).Ready? then Some(CheckSubmit(old(form)).payload) else None
      ensures alert == SubmitAlert(CheckSubmit(old(form)), outcome)
      ensures !loading
      ensures sent.Some? && outcome == Succeeded ==>
        form == DEFAULT_FORM && callbacks == old(callbacks) + 1 && !open
      ensures !(sent.Some? && outcome == Succeeded) ==>
        form == old(form) && callbacks == old(callbacks) && open == old(open)
      ensures old(|form.options|) >= 1 ==> Valid()
    {
      loading := true;
      sent, alert := None, None;
      if form.question_type == "" {
        alert := Some(MISSING_TYPE_ALERT);
        loading := false;
        return;
      }
      if form.question_type == MULTIPLE_CHOICE && |form.options| == 0 {
        alert := Some(NO_OPTIONS_ALERT);
        loading := false;
        return;
      }
      var payload := BuildPayload(form);
      sent := Some(payload);
      match outcome {
        case Succeeded =>
          form := DEFAULT_FORM;
          callbacks := callbacks + 1;
          open := false;
        case Rejected =>
          alert := Some(CREATE_ALERT);
        case Threw =>
          alert := Some(CREATE_ALERT);
      }
      loading := false;
    }

    /** `handleSubmit(onSubmit)`: `onSubmit` runs only when the declared rules pass. */
    method HandleSubmit(outcome: Outcome) returns (sent: Option<Payload>, alert: Option<string>)
      requires Valid()
      modifies this`form, this`loading, this`open, this`callbacks
      ensures Valid()
      ensures !RulesHold(old(form)) ==>
        sent == None && alert == None && form == old(form) && open == old(open) && callbacks == old(callbacks)
      ensures RulesHold(old(form)) ==> sent == Some(BuildPayload(old(form)))
      ensures RulesHold(old(form)) ==> alert == SubmitAlert(CheckSubmit(old(form)), outcome)
      ensures RulesHold(old(form)) && outcome == Succeeded ==>
        form == DEFAULT_FORM && callbacks == old(callbacks) + 1 && !open
      ensures RulesHold(old(form)) && outcome != Succeeded ==>
        form == old(form) && open == old(open) && callbacks == old(callbacks)
    {
      if !RulesHold(form) {
        return None, None;
      }
      RulesGuaranteeRequest(form);
      sent, alert := OnSubmit(outcome);
    }

    /** `handleClose`: reset the form and close. */
    method HandleClose()
      modifies this`form, this`open
      ensures form == DEFAULT_FORM && !open
    {
      form := DEFAULT_FORM;
      open := false;
    }

    /** The add button: one empty row at the end. */
    method AppendOption()
      requires Valid()
      modifies this`form
      ensures Valid()
      ensures form == old(form).(options := old(form.options) + [EMPTY_OPTION])
    {
      form := form.(options := form.options + [EMPTY_OPTION]);
    }

    /** A row's remove button, disabled while only one row is left. */
    method RemoveOption(index: nat)
      requires Valid() && index < |form.options|
      modifies this`form
      ensures Valid()
      ensures old(|form.options|) <= 1 ==> form == old(form)
      ensures old(|form.options|) > 1 ==>
        form == old(form).(options := old(form.options)[..index] + old(form.options)[index + 1..])
    {
      if |form.options| > 1 {
        form := form.(options := form.options[..index] + form.options[index + 1..]);
      }
    }

    /** Typing into the question fields or picking the type; the option rows stay. */
    method EditFields(question_en: string, question_vi: string, example_en: string, example_vi: string, question_type: string)
      requires Valid()
      modifies this`form
      ensures Valid()
      ensures form == FormData(question_en, question_vi, example_en, example_vi, question_type, old(form.options))
    {
      form := FormData(question_en, question_vi, example_en, example_vi, question_type, form.options);
    }

    /** Typing into one option row. */
    method EditOption(index: nat, text_en: string, text_vi: string)
      requires Valid() && index < |form.options|
      modifies this`form
      ensures Valid()
      ensures form == old(form).(options := old(form.options)[index := OptionRow(text_en, text_vi)])
    {
      form := form.(options := form.options[index := OptionRow(text_en, text_vi)]);
    }
  }
}
