/**
 * src/pages/QuestionSet/components/UpdateModal/index.tsx: the form that
 * renames a question set. The `category` prop, the form's default and current
 * values, `loading`, the parent's `isOpenEdit` flag (`open`) and the number of
 * parent callbacks fired are the state; the PUT's result is the `outcome` argument.
 */
module UpdateQuestionSet {
  import opened Wrappers
  import opened Fetch
  import opened QuestionTypes

  datatype NameForm = NameForm(name_en: string, name_vi: string)

  /** The PUT: the record's id in the query and the two names as the body. */
  datatype UpdateRequest = UpdateRequest(id: string, payload: NameForm)

  const UPDATE_ALERT := "Error creating question"

  /** The initial form values: the record's names, or empty strings without a record. */
  function FormOf(category: Option<NamedEntity>): (f: NameForm)
    ensures category.None? ==> f == NameForm("", "")
    ensures category.Some? ==> f.name_en == category.value.name_en && f.name_vi == category.value.name_vi
  {
    match category
    case None => NameForm("", "")
    case Some(c) => NameForm(c.name_en, c.name_vi)
  }

  /** The declared `required` rules on both names. */
  predicate RulesHold(f: NameForm) {
    f.name_en != "" && f.name_vi != ""
  }

  /** `onSubmit` goes past its first line only for a record with a non-empty id. */
  predicate CanDispatch(category: Option<NamedEntity>) {
    category.Some? && category.value.id != ""
  }

  class UpdateModal {
    var category: Option<NamedEntity>
    /** react-hook-form's default values, which `reset()` restores and `reset(values)` replaces. */
    var defaults: NameForm
    var form: NameForm
    var loading: bool
    var open: bool
    var callbacks: nat

    constructor (category: Option<NamedEntity>, open: bool)
      ensures this.category == category && defaults == FormOf(category) && form == FormOf(category)
      ensures !loading && this.open == open && callbacks == 0
    {
      this.category := category;
      defaults := FormOf(category);
      form := FormOf(category);
      loading := false;
      this.open := open;
      callbacks := 0;
    }

    /**
     * `onSubmit` with the PUT's outcome. Without a record id nothing happens,
     * not even to `loading`. Otherwise the form's two names go to the record's
     * id; success resets the form, fires the callback and closes; failure or a
     * throw alerts and keeps the modal open; `loading` ends false.
     */
    method OnSubmit(outcome: Outcome) returns (sent: Option<UpdateRequest>, alert: Option<string>)
      modifies this`form, this`loading, this`open, this`callbacks
      ensures !CanDispatch(category) ==>
        && sent == None && alert == None
        && form == old(form) && loading == old(loading) && open == old(open) && callbacks == old(callbacks)
      ensures CanDispatch(category) ==>
        && sent == Some(UpdateRequest(category.value.id, old(form)))
        && alert == (if outcome == Succeeded then None else Some(UPDATE_ALERT))
        && !loading
      ensures CanDispatch(category) && outcome == Succeeded ==>
        form == defaults && callbacks == old(callbacks) + 1 && !open
      ensures CanDispatch(category) && outcome != Succeeded ==>
        form == old(form) && callbacks == old(callbacks) && open == old(open)
    {
      if category.None? || category.value.id == "" {
        return None, None;
      }
      loading := true;
      alert := None;
      var payload := NameForm(form.name_en, form.name_vi);
      sent := Some(UpdateRequest(category.value.id, payload));
      match outcome {
        case Succeeded =>
          form := defaults;
          callbacks := callbacks + 1;
          open := false;
        case Rejected =>
          alert := Some(UPDATE_ALERT);
        case Threw =>
          alert := Some(UPDATE_ALERT);
      }
      loading := false;
    }

    /** `handleSubmit(onSubmit)`: `onSubmit` runs only when both names are filled in. */
    method HandleSubmit(outcome: Outcome) returns (sent: Option<UpdateRequest>, alert: Option<string>)
      modifies this`form, this`loading, this`open, this`callbacks
      ensures !RulesHold(old(form)) ==>
        && sent == None && alert == None
        && form == old(form) && loading == old(loading) && open == old(open) && callbacks == old(callbacks)
      ensures RulesHold(old(form)) && !CanDispatch(category) ==>
        && sent == None && alert == None
        && form == old(form) && loading == old(loading) && open == old(open) && callbacks == old(callbacks)
      ensures RulesHold(old(form)) && CanDispatch(category) ==>
        && sent == Some(UpdateRequest(category.value.id, old(form)))
        && alert == (if outcome == Succeeded then None else Some(UPDATE_ALERT))
        && !loading
      ensures RulesHold(old(form)) && CanDispatch(category) && outcome == Succeeded ==>
        form == defaults && callbacks == old(callbacks) + 1 && !open
      ensures RulesHold(old(form)) && CanDispatch(category) && outcome != Succeeded ==>
        form == old(form) && callbacks == old(callbacks) && open == old(open)
    {
      if !RulesHold(form) {
        return None, None;
      }
      sent, alert := OnSubmit(outcome);
    }

    /** `handleClose`: back to the default values, and closed. */
    method HandleClose()
      modifies this`form, this`open
      ensures form == defaults && !open
    {
      form := defaults;
      open := false;
    }

    /** Typing into the two fields. */
    method Edit(f: NameForm)
      modifies this`form
      ensures form == f
    {
      form := f;
    }

    /**
     * The effect on a new `category` prop: a present record becomes both the
     * form's values and its defaults; a missing one changes neither.
     */
    method Resync(newCategory: Option<NamedEntity>)
      modifies this`category, this`defaults, this`form
      ensures category == newCategory
      ensures newCategory.Some? ==> defaults == FormOf(newCategory) && form == FormOf(newCategory)
      ensures newCategory.None? ==> defaults == old(defaults) && form == old(form)
    {
      category := newCategory;
      if newCategory.Some? {
        defaults := NameForm(newCategory.value.name_en, newCategory.value.name_vi);
        form := defaults;
      }
    }
  }

  /**
   * After the prop changes to a record, closing the modal (or a successful
   * submit) brings back that record's names, not the ones of the record the
   * modal was mounted with.
   */
  method ResyncThenClose(m: UpdateModal, c: NamedEntity, typed: NameForm)
    modifies m
    ensures m.form == NameForm(c.name_en, c.name_vi) && !m.open
  {
    m.Resync(Some(c));
    m.Edit(typed);
    m.HandleClose();
  }
}
