/**
 * One editable support-tier card on the petition's edit page: whether the tier may be
 * edited or deleted, which buttons it offers, the id it takes over once created, and its
 * success and error messages.
 */
module EditSupportTierCard {
  import opened Js
  import opened ResponseBodies
  import opened Util

  /** A tier can be edited only while nobody supports it. */
  predicate Editable(numberOfSupporters: int) {
    numberOfSupporters == 0
  }

  /** A tier can be deleted when it can be edited and is not the petition's only tier. */
  predicate Deletable(numberOfSupporters: int, onlySupportTier: bool) {
    Editable(numberOfSupporters) && !onlySupportTier
  }

  datatype Action = Delete | Save | Remove | Create

  /** A button of the card: what it does and whether it is disabled. */
  datatype ActionButton = ActionButton(action: Action, disabled: bool)

  /**
   * The card's buttons: a persisted tier (one with an id) offers Delete and Save, each
   * disabled when the tier may not be deleted or edited; a card not yet created offers
   * Remove and Create, always enabled.
   */
  function ActionButtons(supportTierId: Option<int>, numberOfSupporters: int, onlySupportTier: bool)
    : (buttons: seq<ActionButton>)
    ensures |buttons| == 2
    ensures supportTierId.Some? <==> buttons[0].action == Delete
    ensures supportTierId.Some? ==> buttons[1].action == Save
    ensures supportTierId.None? ==> buttons[0].action == Remove && buttons[1].action == Create
    ensures supportTierId.Some? ==>
              (buttons[0].disabled <==> numberOfSupporters != 0 || onlySupportTier)
              && (buttons[1].disabled <==> numberOfSupporters != 0)
    ensures supportTierId.None? ==> !buttons[0].disabled && !buttons[1].disabled
  {
    if supportTierId.Some? then
      [ActionButton(Delete, !Deletable(numberOfSupporters, onlySupportTier)),
       ActionButton(Save, !Editable(numberOfSupporters))]
    else
      [ActionButton(Remove, false), ActionButton(Create, false)]
  }

  /** Whenever Delete is enabled, so is Save. */
  lemma DeleteEnabledOnlyIfSaveEnabled(supportTierId: Option<int>, numberOfSupporters: int, onlySupportTier: bool)
    requires supportTierId.Some?
    requires !ActionButtons(supportTierId, numberOfSupporters, onlySupportTier)[0].disabled
    ensures !ActionButtons(supportTierId, numberOfSupporters, onlySupportTier)[1].disabled
  {
  }

  /** A supported tier is locked: both of its buttons are disabled. */
  lemma SupportedTierIsLocked(supportTierId: int, numberOfSupporters: int, onlySupportTier: bool)
    requires numberOfSupporters > 0
    ensures var buttons := ActionButtons(Some(supportTierId), numberOfSupporters, onlySupportTier);
            buttons[0].disabled && buttons[1].disabled
  {
  }

  /** The only tier of a petition can be saved but never deleted. */
  lemma OnlyTierIsNeverDeleted(supportTierId: int, numberOfSupporters: int)
    ensures ActionButtons(Some(supportTierId), numberOfSupporters, true)[0].disabled
    ensures !ActionButtons(Some(supportTierId), numberOfSupporters, true)[1].disabled <==> numberOfSupporters == 0
  {
  }

  const SupportersInfo := "Cannot edit or delete support tier with supporters"
  const OnlyTierInfo := "Cannot delete, must have at least one tier"

  /**
   * The information alert: shown when the tier has supporters or is the only one, with
   * the reason for each restriction that applies, in that order.
   */
  function InfoAlert(numberOfSupporters: int, onlySupportTier: bool): Option<string> {
    if onlySupportTier || numberOfSupporters > 0 then
      Some((if numberOfSupporters > 0 then SupportersInfo else "") + (if onlySupportTier then OnlyTierInfo else ""))
    else None
  }

  predicate EndsWith(s: string, suffix: string) {
    |suffix| <= |s| && s[|s| - |suffix|..] == suffix
  }

  /**
   * The alert follows the locking rules: it is hidden exactly when the tier may be
   * deleted, it opens with the supporters reason exactly when the tier may not be
   * edited, and it closes with the only-tier reason exactly when it is the only tier.
   */
  lemma InfoAlertExplainsLocks(numberOfSupporters: nat, onlySupportTier: bool)
    ensures InfoAlert(numberOfSupporters, onlySupportTier).None? <==> Deletable(numberOfSupporters, onlySupportTier)
    ensures InfoAlert(numberOfSupporters, onlySupportTier).Some? ==>
              && (SupportersInfo <= InfoAlert(numberOfSupporters, onlySupportTier).value
                  <==> !Editable(numberOfSupporters))
              && (EndsWith(InfoAlert(numberOfSupporters, onlySupportTier).value, OnlyTierInfo)
                  <==> onlySupportTier)
  {
    if numberOfSupporters == 0 && onlySupportTier {
      assert InfoAlert(numberOfSupporters, onlySupportTier).value == OnlyTierInfo;
      assert |OnlyTierInfo| < |SupportersInfo|;
    } else if numberOfSupporters > 0 && !onlySupportTier {
      assert InfoAlert(numberOfSupporters, onlySupportTier).value == SupportersInfo;
      SupportersInfoLacksOnlyTierSuffix();
    } else if numberOfSupporters > 0 {
      var text := SupportersInfo + OnlyTierInfo;
      assert InfoAlert(numberOfSupporters, onlySupportTier).value == text;
      assert text[..|SupportersInfo|] == SupportersInfo;
      assert text[|text| - |OnlyTierInfo|..] == OnlyTierInfo;
    }
  }

  /** The supporters reason alone does not end with the only-tier reason. */
  lemma SupportersInfoLacksOnlyTierSuffix()
    ensures !EndsWith(SupportersInfo, OnlyTierInfo)
  {
    var k := |SupportersInfo| - |OnlyTierInfo|;
    assert SupportersInfo[k..][0] != OnlyTierInfo[0];
  }

  /** The position of the first fetched tier titled `title`, if there is one. */
  function FirstTitleMatch(fetched: seq<SupportTier>, title: string): (k: Option<nat>)
    ensures k.Some? ==> k.value < |fetched| && fetched[k.value].title == title
    ensures k.Some? ==> forall j :: 0 <= j < k.value ==> fetched[j].title != title
    ensures k.None? <==> forall j :: 0 <= j < |fetched| ==> fetched[j].title != title
  {
    if fetched == [] then None
    else if fetched[0].title == title then Some(0)
    else match FirstTitleMatch(fetched[1..], title)
      case None => None
      case Some(k) => Some(k + 1)
  }

  /** Tiers after the first one with the title are never looked at. */
  lemma {:induction false} LaterTiersAreIgnored(before: seq<SupportTier>, tier: SupportTier,
                                                after: seq<SupportTier>, title: string)
    requires forall j :: 0 <= j < |before| ==> before[j].title != title
    requires tier.title == title
    ensures FirstTitleMatch(before + [tier] + after, title) == Some(|before|)
  {
    var fetched := before + [tier] + after;
    assert fetched[|before|] == tier;
    assert forall j :: 0 <= j < |before| ==> fetched[j] == before[j];
  }

  class SupportTierCard {
    /** The id of the tier shown; the back-fill writes it once the tier has been created. */
    var supportTierId: Option<int>
    /** Props the parent recomputes on every render. */
    var numberOfSupporters: int
    var onlySupportTier: bool
    var title: string
    var description: string
    var cost: TierCost
    /** The last error from the server, formatted; "" when there is none. */
    var errorMessage: string
    var success: bool

    /** The card's state when first shown: the tier's own fields, or blanks without a tier. */
    constructor (supportTier: Option<AbstractSupportTier>, numberOfSupporters: int, onlySupportTier: bool)
      ensures supportTier.Some? ==>
                && supportTierId == supportTier.value.supportTierId
                && title == supportTier.value.title
                && description == supportTier.value.description
                && cost == supportTier.value.cost
      ensures supportTier.None? ==> supportTierId.None? && title == "" && description == "" && cost == BlankCost
      ensures this.numberOfSupporters == numberOfSupporters && this.onlySupportTier == onlySupportTier
      ensures errorMessage == "" && !success
    {
      match supportTier {
        case Some(t) =>
          supportTierId := t.supportTierId;
          title := t.title;
          description := t.description;
          cost := t.cost;
        case None =>
          supportTierId := None;
          title := "";
          description := "";
          cost := BlankCost;
      }
      this.numberOfSupporters := numberOfSupporters;
      this.onlySupportTier := onlySupportTier;
      errorMessage := "";
      success := false;
    }

    /**
     * The parent re-rendered with a new supporter count and only-tier flag: the card keeps
     * its own state and from now on gates its fields and buttons on the new props.
     */
    method PropsChanged(numberOfSupporters: int, onlySupportTier: bool)
      modifies this
      ensures this.numberOfSupporters == numberOfSupporters && this.onlySupportTier == onlySupportTier
      ensures supportTierId == old(supportTierId) && title == old(title) && description == old(description)
      ensures cost == old(cost) && errorMessage == old(errorMessage) && success == old(success)
    {
      this.numberOfSupporters := numberOfSupporters;
      this.onlySupportTier := onlySupportTier;
    }

    /** Typing into the title field; the field is disabled while the tier cannot be edited. */
    method ChangeTitle(text: string)
      modifies this
      ensures title == if Editable(numberOfSupporters) then text else old(title)
      ensures numberOfSupporters == old(numberOfSupporters) && onlySupportTier == old(onlySupportTier)
      ensures supportTierId == old(supportTierId) && description == old(description) && cost == old(cost)
      ensures errorMessage == old(errorMessage) && success == old(success)
    {
      if Editable(numberOfSupporters) {
        title := text;
      }
    }

    /** Typing into the description field, under the same restriction. */
    method ChangeDescription(text: string)
      modifies this
      ensures description == if Editable(numberOfSupporters) then text else old(description)
      ensures numberOfSupporters == old(numberOfSupporters) && onlySupportTier == old(onlySupportTier)
      ensures supportTierId == old(supportTierId) && title == old(title) && cost == old(cost)
      ensures errorMessage == old(errorMessage) && success == old(success)
    {
      if Editable(numberOfSupporters) {
        description := text;
      }
    }

    /** A new cost from the cost input, under the same restriction. */
    method ChangeCost(newCost: TierCost)
      modifies this
      ensures cost == if Editable(numberOfSupporters) then newCost else old(cost)
      ensures numberOfSupporters == old(numberOfSupporters) && onlySupportTier == old(onlySupportTier)
      ensures supportTierId == old(supportTierId) && title == old(title) && description == old(description)
      ensures errorMessage == old(errorMessage) && success == old(success)
    {
      if Editable(numberOfSupporters) {
        cost := newCost;
      }
    }

    /** A save, creation or deletion succeeded: show the success alert and clear the error. */
    method ShowSuccess()
      modifies this
      ensures success && errorMessage == ""
      ensures numberOfSupporters == old(numberOfSupporters) && onlySupportTier == old(onlySupportTier)
      ensures supportTierId == old(supportTierId) && title == old(title)
      ensures description == old(description) && cost == old(cost)
    {
      success := true;
      errorMessage := "";
    }

    /** The timer started by `ShowSuccess` fires and hides the success alert. */
    method HideSuccess()
      modifies this
      ensures !success
      ensures numberOfSupporters == old(numberOfSupporters) && onlySupportTier == old(onlySupportTier)
      ensures supportTierId == old(supportTierId) && title == old(title) && description == old(description)
      ensures cost == old(cost) && errorMessage == old(errorMessage)
    {
      success := false;
    }

    /**
     * A request failed with the given status text: the card shows it formatted. When
     * formatting fails (the handler throws), nothing changes.
     */
    method ReportFailure(statusText: string)
      modifies this
      ensures FormatServerResponse(statusText).Some? ==> errorMessage == FormatServerResponse(statusText).value
      ensures FormatServerResponse(statusText).None? ==> errorMessage == old(errorMessage)
      ensures numberOfSupporters == old(numberOfSupporters) && onlySupportTier == old(onlySupportTier)
      ensures supportTierId == old(supportTierId) && title == old(title) && description == old(description)
      ensures cost == old(cost) && success == old(success)
    {
      match FormatServerResponse(statusText)
      case Some(m) =>
        errorMessage := m;
      case None =>
    }

    /**
     * After creating the tier, the petition's tiers are fetched again and the card takes
     * the id of the first tier whose title equals its own; it keeps its id when none does.
     */
    method BackfillId(fetched: seq<SupportTier>)
      modifies this
      ensures FirstTitleMatch(fetched, title).Some? ==>
                supportTierId == Some(fetched[FirstTitleMatch(fetched, title).value].supportTierId)
      ensures FirstTitleMatch(fetched, title).None? ==> supportTierId == old(supportTierId)
      ensures numberOfSupporters == old(numberOfSupporters) && onlySupportTier == old(onlySupportTier)
      ensures title == old(title) && description == old(description) && cost == old(cost)
      ensures errorMessage == old(errorMessage) && success == old(success)
    {
      var i := 0;
      while i < |fetched|
        invariant 0 <= i <= |fetched|
        invariant forall j :: 0 <= j < i ==> fetched[j].title != title
        invariant supportTierId == old(supportTierId)
      {
        if fetched[i].title == title {
          supportTierId := Some(fetched[i].supportTierId);
          break;
        }
        i := i + 1;
      }
    }
  }

  /**
   * A card shown before the supporters are loaded becomes locked once they are: after the
   * parent passes a positive count, typing no longer changes the title.
   */
  method LoadedSupportersLockTitle(card: SupportTierCard, numberOfSupporters: int, text: string)
    requires numberOfSupporters > 0
    modifies card
    ensures card.title == old(card.title)
    ensures card.numberOfSupporters == numberOfSupporters
  {
    card.PropsChanged(numberOfSupporters, card.onlySupportTier);
    card.ChangeTitle(text);
  }
}
