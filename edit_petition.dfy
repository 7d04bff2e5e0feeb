/**
 * The edit-petition form: its two validated text fields, the chosen category, and the
 * checks the save button runs before the edit request is sent.
 */
module EditPetition {
  import opened Js
  import opened StringValidation
  import opened Util

  /** The title is required and at most 128 characters. */
  const TitleRules: ValidationRules := ValidationRules(true, Some(128), None, false)
  /** The description is required and at most 1024 characters. */
  const DescriptionRules: ValidationRules := ValidationRules(true, Some(1024), None, false)

  const NoCategoryMessage: string := "Please select a category"

  /** A title is accepted exactly when it is not blank and has at most 128 characters. */
  lemma TitleAccepted(value: string)
    ensures Evaluate(value, TitleRules) == None <==> !IsBlank(value) && |value| <= 128
  {
    TrimEmptyIffBlank(value);
  }

  /** A description is accepted exactly when it is not blank and has at most 1024 characters. */
  lemma DescriptionAccepted(value: string)
    ensures Evaluate(value, DescriptionRules) == None <==> !IsBlank(value) && |value| <= 1024
  {
    TrimEmptyIffBlank(value);
  }

  class EditPetitionForm {
    const title: StringField
    const description: StringField
    var categoryId: Option<int>
    var formSubmitted: bool
    var errorMessage: Option<string>

    /** Mounting: empty fields with their rules, no category, nothing submitted. */
    constructor ()
      ensures title.rules == TitleRules && title.value == "" && title.error == None
      ensures description.rules == DescriptionRules && description.value == "" && description.error == None
      ensures title != description
      ensures categoryId == None && !formSubmitted && errorMessage == None
    {
      title := new StringField(TitleRules, "");
      description := new StringField(DescriptionRules, "");
      categoryId := None;
      formSubmitted := false;
      errorMessage := None;
    }

    /** The petition's details arrive: the fields take its title, description and category. */
    method DetailsLoaded(t: string, d: string, c: int)
      requires title != description
      modifies this, title, description
      ensures title.value == t && title.Settled()
      ensures description.value == d && description.Settled()
      ensures categoryId == Some(c)
      ensures formSubmitted == old(formSubmitted) && errorMessage == old(errorMessage)
    {
      title.SetValue(t);
      description.SetValue(d);
      categoryId := Some(c);
    }

    /**
     * `handleSavePetition`: the form counts as submitted; without a category the message
     * says so and nothing else is checked; otherwise the message is cleared and the edit
     * request is sent (`sent`) unless the title or the description has an error.
     */
    method HandleSavePetition() returns (sent: bool)
      modifies this
      ensures formSubmitted
      ensures categoryId == old(categoryId)
      ensures categoryId.None? ==> errorMessage == Some(NoCategoryMessage) && !sent
      ensures categoryId.Some? ==>
                errorMessage == None
                && sent == !(TruthyOptString(title.error) || TruthyOptString(description.error))
    {
      formSubmitted := true;
      if categoryId.None? {
        errorMessage := Some(NoCategoryMessage);
        return false;
      } else {
        errorMessage := None;
      }
      if TruthyOptString(title.error) || TruthyOptString(description.error) {
        return false;
      }
      sent := true;
    }

    /** The edit request failed: its status text, formatted, becomes the message (a text the formatter throws on leaves it). */
    method SaveFailed(statusText: string)
      modifies this
      ensures FormatServerResponse(statusText).Some? ==> errorMessage == FormatServerResponse(statusText)
      ensures FormatServerResponse(statusText).None? ==> errorMessage == old(errorMessage)
      ensures categoryId == old(categoryId) && formSubmitted == old(formSubmitted)
    {
      var m := FormatServerResponse(statusText);
      if m.Some? {
        errorMessage := m;
      }
    }

    /** `formSubmitted && Boolean(field.error)`: a field's error shows only after a save attempt. */
    predicate ErrorShown(field: StringField)
      reads this, field
    {
      formSubmitted && TruthyOptString(field.error)
    }
  }

  /** A settled, visible error of a settled field is the evaluator's verdict on its text. */
  lemma ShownErrorIsVerdict(form: EditPetitionForm, field: StringField)
    requires field.Settled() && form.ErrorShown(field)
    ensures form.formSubmitted
    ensures Evaluate(field.value, field.rules).Some?
  {
  }

  /** After a save with a category and two settled, valid fields the request is sent. */
  method SaveValidForm(form: EditPetitionForm, c: int) returns (sent: bool)
    requires form.title.Settled() && form.description.Settled()
    requires form.title.rules == TitleRules && form.description.rules == DescriptionRules
    requires !IsBlank(form.title.value) && |form.title.value| <= 128
    requires !IsBlank(form.description.value) && |form.description.value| <= 1024
    modifies form
    ensures sent && form.errorMessage == None && form.formSubmitted
  {
    TitleAccepted(form.title.value);
    DescriptionAccepted(form.description.value);
    form.categoryId := Some(c);
    sent := form.HandleSavePetition();
  }
}
