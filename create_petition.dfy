/**
 * The new-petition page: the support tiers collected before the petition is sent (added
 * under a guard, removed by position, at most three offered), and the check that an image
 * was chosen before anything is sent.
 */
module CreatePetition {
  import opened Js
  import opened ResponseBodies
  import opened IntParsing
  import opened Lists

  const NoImageMessage := "Please upload an image for your petition."

  /** The image the user picked; only its presence matters to the page's logic. */
  datatype ImageFile = ImageFile(name: string)

  /** What `createPetition` is called with. */
  datatype PetitionRequest = PetitionRequest(
    title: string,
    description: string,
    categoryId: Number,
    supportTiers: seq<SupportTier>)

  /** A tier is accepted when its title and description are non-empty and its cost is a number >= 0. */
  predicate AcceptsTier(title: string, description: string, cost: Number) {
    |title| > 0 && |description| > 0 && cost.Num? && cost.value >= 0.0
  }

  /** A cost that is not a number is never accepted (`NaN >= 0` is false). */
  lemma NaNCostIsRejected(title: string, description: string)
    ensures !AcceptsTier(title, description, NaN)
  {
  }

  class PetitionDraft {
    var petitionImage: Option<ImageFile>
    var errorMessage: Option<string>
    var showSupportTierModal: bool
    var supportTiers: seq<SupportTier>

    /** The page as first shown: no image, no error, no tiers, the tier dialog closed. */
    constructor ()
      ensures petitionImage.None? && errorMessage.None? && !showSupportTierModal && supportTiers == []
    {
      petitionImage := None;
      errorMessage := None;
      showSupportTierModal := false;
      supportTiers := [];
    }

    /** The image picker reports a file, or none. */
    method SetPetitionImage(image: Option<ImageFile>)
      modifies this
      ensures petitionImage == image
      ensures errorMessage == old(errorMessage) && showSupportTierModal == old(showSupportTierModal)
      ensures supportTiers == old(supportTiers)
    {
      petitionImage := image;
    }

    /** The add button opens the tier dialog. */
    method OpenSupportTierModal()
      modifies this
      ensures showSupportTierModal
      ensures petitionImage == old(petitionImage) && errorMessage == old(errorMessage)
      ensures supportTiers == old(supportTiers)
    {
      showSupportTierModal := true;
    }

    /** The tier dialog is dismissed. */
    method CloseSupportTierModal()
      modifies this
      ensures !showSupportTierModal
      ensures petitionImage == old(petitionImage) && errorMessage == old(errorMessage)
      ensures supportTiers == old(supportTiers)
    {
      showSupportTierModal := false;
    }

    /**
     * The dialog submits a tier. An accepted one goes at the end with id 0 and the dialog
     * closes; otherwise nothing changes.
     */
    method AddSupportTier(title: string, description: string, cost: Number)
      modifies this
      ensures AcceptsTier(title, description, cost) ==>
                && supportTiers == old(supportTiers) + [SupportTier(0, title, description, cost.value)]
                && !showSupportTierModal
      ensures !AcceptsTier(title, description, cost) ==>
                supportTiers == old(supportTiers) && showSupportTierModal == old(showSupportTierModal)
      ensures petitionImage == old(petitionImage) && errorMessage == old(errorMessage)
    {
      if |title| > 0 && |description| > 0 && cost.Num? && cost.value >= 0.0 {
        supportTiers := supportTiers + [SupportTier(0, title, description, cost.value)];
        showSupportTierModal := false;
      }
    }

    /** The remove button of the tier at `index`. */
    method RemoveSupportTier(index: int)
      modifies this
      ensures supportTiers == WithoutIndex(old(supportTiers), index)
      ensures petitionImage == old(petitionImage) && errorMessage == old(errorMessage)
      ensures showSupportTierModal == old(showSupportTierModal)
    {
      supportTiers := WithoutIndex(supportTiers, index);
    }

    /** The add button is offered while fewer than three tiers are listed. */
    predicate ShowAddButton()
      reads this
    {
      |supportTiers| < 3
    }

    /**
     * Submitting the form: without an image the page says so and sends nothing; otherwise
     * it sends the form's fields, the category read by `parseInt`, and the tiers.
     */
    method HandleSubmit(title: string, description: string, category: string)
      returns (request: Option<PetitionRequest>)
      modifies this
      ensures old(petitionImage).None? ==> request.None? && errorMessage == Some(NoImageMessage)
      ensures old(petitionImage).Some? ==>
                request == Some(PetitionRequest(title, description, ParseInt(category), supportTiers))
                && errorMessage == old(errorMessage)
      ensures petitionImage == old(petitionImage) && supportTiers == old(supportTiers)
      ensures showSupportTierModal == old(showSupportTierModal)
    {
      if petitionImage.None? {
        errorMessage := Some(NoImageMessage);
        return None;
      }
      request := Some(PetitionRequest(title, description, ParseInt(category), supportTiers));
    }

    /** The server refused the petition: its status text becomes the error. */
    method CreateFailed(statusText: string)
      modifies this
      ensures errorMessage == Some(statusText)
      ensures petitionImage == old(petitionImage) && supportTiers == old(supportTiers)
      ensures showSupportTierModal == old(showSupportTierModal)
    {
      errorMessage := Some(statusText);
    }
  }

  /** With no image chosen, submitting twice still sends nothing and keeps the same message. */
  method SubmitWithoutImage(draft: PetitionDraft, title: string, description: string, category: string)
    requires draft.petitionImage.None?
    modifies draft
    ensures draft.errorMessage == Some(NoImageMessage)
  {
    var first := draft.HandleSubmit(title, description, category);
    var second := draft.HandleSubmit(title, description, category);
    assert first.None? && second.None?;
  }

  /** An accepted tier can be taken back with the remove button of the last position. */
  method AddThenRemove(draft: PetitionDraft, title: string, description: string, cost: Number)
    requires AcceptsTier(title, description, cost)
    modifies draft
    ensures draft.supportTiers == old(draft.supportTiers)
  {
    var n := |draft.supportTiers|;
    draft.AddSupportTier(title, description, cost);
    draft.RemoveSupportTier(n);
    RemoveUndoesAppend(old(draft.supportTiers), SupportTier(0, title, description, cost.value));
  }
}
