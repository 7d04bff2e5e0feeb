/**
 * The support-tier editor of a petition: the cards being edited, the supporters grouped by
 * the tier they support, each card's supporter count, adding and removing cards.
 */
module SupportTiersPaper {
  import opened Js
  import opened ResponseBodies
  import opened JsMap
  import opened Lists
  import opened EditSupportTierCard

  /** The supporters of tier `id`, in the order the server listed them. */
  function FromTier(supporters: seq<Supporter>, id: int): (r: seq<Supporter>)
    ensures |r| <= |supporters|
    ensures forall i :: 0 <= i < |r| ==> r[i].supportTierId == id
  {
    if supporters == [] then []
    else
      var last := supporters[|supporters| - 1];
      FromTier(supporters[..|supporters| - 1], id) + if last.supportTierId == id then [last] else []
  }

  /** Reference reading of the grouping: the tier ids in order of first appearance. */
  function TierOrder(supporters: seq<Supporter>): seq<int> {
    if supporters == [] then []
    else
      var before := TierOrder(supporters[..|supporters| - 1]);
      var id := supporters[|supporters| - 1].supportTierId;
      if id in before then before else before + [id]
  }

  /** Reference reading of the grouping: each id's list after pushing every supporter in turn. */
  function Groups(supporters: seq<Supporter>): map<int, seq<Supporter>> {
    if supporters == [] then map[]
    else
      var before := Groups(supporters[..|supporters| - 1]);
      var last := supporters[|supporters| - 1];
      var id := last.supportTierId;
      before[id := (if id in before then before[id] else []) + [last]]
  }

  /** The map holds what grouping the supporters processed so far gives. */
  predicate GroupsHold(m: OrderedMap<int, seq<Supporter>>, processed: seq<Supporter>)
    reads m
  {
    && m.Valid()
    && m.keys == TierOrder(processed)
    && m.vals == Groups(processed)
  }

  lemma GroupsStep(processed: seq<Supporter>, s: Supporter)
    ensures TierOrder(processed + [s])
         == if s.supportTierId in TierOrder(processed) then TierOrder(processed) else TierOrder(processed) + [s.supportTierId]
    ensures Groups(processed + [s])
         == Groups(processed)[s.supportTierId := (if s.supportTierId in Groups(processed)
                                                  then Groups(processed)[s.supportTierId] else []) + [s]]
  {
    assert (processed + [s])[..|processed|] == processed;
  }

  /**
   * One step of the grouping loop: start a list for a tier not seen before, then push the
   * supporter onto its tier's list.
   */
  method Push(m: OrderedMap<int, seq<Supporter>>, ghost processed: seq<Supporter>, s: Supporter)
    requires GroupsHold(m, processed)
    modifies m
    ensures GroupsHold(m, processed + [s])
  {
    GroupsStep(processed, s);
    if !m.Has(s.supportTierId) {
      m.Set(s.supportTierId, []);
    }
    match m.Get(s.supportTierId) {
      case Some(list) =>
        m.Set(s.supportTierId, list + [s]);
      case None =>
    }
  }

  /** The grouping loop: every supporter in turn is pushed onto the list of its tier. */
  method GroupBySupportTier(supporters: seq<Supporter>) returns (m: OrderedMap<int, seq<Supporter>>)
    ensures fresh(m)
    ensures GroupsHold(m, supporters)
  {
    m := new OrderedMap<int, seq<Supporter>>();
    assert supporters[..0] == [];
    var i := 0;
    while i < |supporters|
      invariant 0 <= i <= |supporters|
      invariant fresh(m)
      invariant GroupsHold(m, supporters[..i])
    {
      Push(m, supporters[..i], supporters[i]);
      assert supporters[..i + 1] == supporters[..i] + [supporters[i]];
      i := i + 1;
    }
    assert supporters[..i] == supporters;
  }

  /** Each group is the filter of the supporters by its id; the ids grouped are those that occur. */
  lemma {:induction false} GroupsAreFilters(supporters: seq<Supporter>)
    ensures forall id :: id in Groups(supporters) ==> Groups(supporters)[id] == FromTier(supporters, id)
    ensures forall id :: id !in Groups(supporters) ==> FromTier(supporters, id) == []
    ensures forall id :: id in Groups(supporters) <==> id in TierOrder(supporters)
  {
    if supporters != [] {
      var before := supporters[..|supporters| - 1];
      GroupsAreFilters(before);
    }
  }

  /** A supporter is in the group of its own tier. */
  lemma {:induction false} SupporterInOwnGroup(supporters: seq<Supporter>, k: nat)
    requires k < |supporters|
    ensures supporters[k].supportTierId in Groups(supporters)
    ensures supporters[k] in Groups(supporters)[supporters[k].supportTierId]
  {
    var before := supporters[..|supporters| - 1];
    if k < |supporters| - 1 {
      assert before[k] == supporters[k];
      SupporterInOwnGroup(before, k);
    }
  }

  /** TierOrder never repeats an id. */
  lemma {:induction false} TierOrderDistinct(supporters: seq<Supporter>)
    ensures Distinct(TierOrder(supporters))
  {
    if supporters != [] {
      TierOrderDistinct(supporters[..|supporters| - 1]);
    }
  }

  /** The total length of the lists stored under `ids`. */
  function TotalLength(ids: seq<int>, groups: map<int, seq<Supporter>>): nat
    requires forall i :: 0 <= i < |ids| ==> ids[i] in groups
  {
    if ids == [] then 0 else |groups[ids[0]]| + TotalLength(ids[1..], groups)
  }

  lemma {:induction false} TotalLengthAppend(ids: seq<int>, groups: map<int, seq<Supporter>>, id: int)
    requires forall i :: 0 <= i < |ids| ==> ids[i] in groups
    requires id in groups
    ensures TotalLength(ids + [id], groups) == TotalLength(ids, groups) + |groups[id]|
  {
    if ids != [] {
      assert (ids + [id])[1..] == ids[1..] + [id];
      TotalLengthAppend(ids[1..], groups, id);
    }
  }

  /** Changing the list of an id not among `ids` leaves their total alone. */
  lemma {:induction false} TotalLengthUpdateOther(ids: seq<int>, groups: map<int, seq<Supporter>>, id: int,
                                                  list: seq<Supporter>)
    requires forall i :: 0 <= i < |ids| ==> ids[i] in groups
    requires id !in ids
    ensures TotalLength(ids, groups[id := list]) == TotalLength(ids, groups)
  {
    if ids != [] {
      TotalLengthUpdateOther(ids[1..], groups, id, list);
    }
  }

  /** Changing the list of an id listed once changes the total by the difference in length. */
  lemma {:induction false} TotalLengthUpdateListed(ids: seq<int>, groups: map<int, seq<Supporter>>, id: int,
                                                   list: seq<Supporter>)
    requires forall i :: 0 <= i < |ids| ==> ids[i] in groups
    requires Distinct(ids) && id in ids
    ensures TotalLength(ids, groups[id := list]) == TotalLength(ids, groups) - |groups[id]| + |list|
  {
    if ids[0] == id {
      assert id !in ids[1..];
      TotalLengthUpdateOther(ids[1..], groups, id, list);
    } else {
      TotalLengthUpdateListed(ids[1..], groups, id, list);
    }
  }

  /** The group lengths add up to the number of supporters: nobody is lost or counted twice. */
  lemma {:induction false} GroupLengthsSum(supporters: seq<Supporter>)
    ensures forall i :: 0 <= i < |TierOrder(supporters)| ==> TierOrder(supporters)[i] in Groups(supporters)
    ensures TotalLength(TierOrder(supporters), Groups(supporters)) == |supporters|
  {
    GroupsAreFilters(supporters);
    if supporters != [] {
      var before := supporters[..|supporters| - 1];
      var s := supporters[|supporters| - 1];
      assert supporters == before + [s];
      GroupLengthsSum(before);
      GroupsAreFilters(before);
      TierOrderDistinct(before);
      GroupsStep(before, s);
      var ids := TierOrder(before);
      var g := Groups(before);
      var id := s.supportTierId;
      var list := (if id in g then g[id] else []) + [s];
      if id in ids {
        TotalLengthUpdateListed(ids, g, id, list);
      } else {
        TotalLengthUpdateOther(ids, g, id, list);
        TotalLengthAppend(ids, g[id := list], id);
      }
    }
  }

  /**
   * The supporter count shown on a card: its group's length, or 0 when the card has no id,
   * a zero id, or no group.
   */
  function NumberOfSupporters(supportTierId: Option<int>, groups: map<int, seq<Supporter>>): (n: nat)
    ensures !TruthyBound(supportTierId) ==> n == 0
    ensures TruthyBound(supportTierId) && supportTierId.value !in groups ==> n == 0
    ensures TruthyBound(supportTierId) && supportTierId.value in groups ==> n == |groups[supportTierId.value]|
  {
    if TruthyBound(supportTierId) then
      if supportTierId.value in groups then |groups[supportTierId.value]| else 0
    else 0
  }

  /** With the grouped supporters, a card with a non-zero id counts exactly the supporters of its tier. */
  lemma SupportersCounted(supporters: seq<Supporter>, supportTierId: Option<int>)
    ensures NumberOfSupporters(supportTierId, Groups(supporters))
         == if TruthyBound(supportTierId) then |FromTier(supporters, supportTierId.value)| else 0
  {
    GroupsAreFilters(supporters);
  }

  /** A card not yet created on the server: no id, blank title, description and cost. */
  const BlankCard := AbstractSupportTier(None, "", "", BlankCost)

  function AbstractTiers(tiers: seq<SupportTier>): (cards: seq<AbstractSupportTier>)
    ensures |cards| == |tiers| && forall i :: 0 <= i < |tiers| ==> cards[i] == AsAbstract(tiers[i])
  {
    if tiers == [] then [] else [AsAbstract(tiers[0])] + AbstractTiers(tiers[1..])
  }

  class SupportTiersEditor {
    /** The petition's tiers as the server last reported them. */
    var concreteSupportTiers: seq<SupportTier>
    /** The cards shown, persisted or not. */
    var supportTierCards: seq<AbstractSupportTier>
    /** The supporters, grouped by the tier they support. */
    var supportersMap: map<int, seq<Supporter>>

    /** The editor as first shown with the petition's tiers, before the supporters arrive. */
    constructor (supportTiers: seq<SupportTier>)
      ensures concreteSupportTiers == supportTiers
      ensures supportTierCards == AbstractTiers(supportTiers)
      ensures supportersMap == map[]
    {
      concreteSupportTiers := supportTiers;
      supportTierCards := AbstractTiers(supportTiers);
      supportersMap := map[];
    }

    /** New tiers from the parent replace both the cards and the persisted tiers. */
    method TiersChanged(supportTiers: seq<SupportTier>)
      modifies this
      ensures concreteSupportTiers == supportTiers
      ensures supportTierCards == AbstractTiers(supportTiers)
      ensures supportersMap == old(supportersMap)
    {
      supportTierCards := AbstractTiers(supportTiers);
      concreteSupportTiers := supportTiers;
    }

    /** The supporters arrived: group them by tier. */
    method SupportersLoaded(supporters: seq<Supporter>)
      modifies this
      ensures supportersMap == Groups(supporters)
      ensures concreteSupportTiers == old(concreteSupportTiers) && supportTierCards == old(supportTierCards)
    {
      var m := GroupBySupportTier(supporters);
      supportersMap := m.vals;
    }

    /** The petition's details arrived again: its persisted tiers are replaced. */
    method DetailsLoaded(supportTiers: seq<SupportTier>)
      modifies this
      ensures concreteSupportTiers == supportTiers
      ensures supportTierCards == old(supportTierCards) && supportersMap == old(supportersMap)
    {
      concreteSupportTiers := supportTiers;
    }

    /** Append a blank card; the existing cards stay as they are. */
    method AddSupportTier()
      modifies this
      ensures supportTierCards == old(supportTierCards) + [BlankCard]
      ensures concreteSupportTiers == old(concreteSupportTiers) && supportersMap == old(supportersMap)
    {
      supportTierCards := supportTierCards + [BlankCard];
    }

    /** Remove the card at `index`; the others keep their order. */
    method RemoveSupportTierCard(index: int)
      modifies this
      ensures supportTierCards == WithoutIndex(old(supportTierCards), index)
      ensures concreteSupportTiers == old(concreteSupportTiers) && supportersMap == old(supportersMap)
    {
      supportTierCards := WithoutIndex(supportTierCards, index);
    }

    /** The add button is offered while fewer than three cards are shown. */
    predicate ShowAddButton()
      reads this
    {
      |supportTierCards| < 3
    }

    /** The card is persisted and the petition has exactly one persisted tier. */
    predicate OnlySupportTier(card: AbstractSupportTier)
      reads this
    {
      |concreteSupportTiers| == 1 && card.supportTierId.Some?
    }

    /** The supporter count handed to a card. */
    function CardSupporters(card: AbstractSupportTier): nat
      reads this
    {
      NumberOfSupporters(card.supportTierId, supportersMap)
    }
  }

  /** The card of a petition's only persisted tier never offers an enabled Delete. */
  lemma OnlyPersistedTierCannotBeDeleted(editor: SupportTiersEditor, card: AbstractSupportTier)
    requires |editor.concreteSupportTiers| == 1 && card.supportTierId.Some?
    ensures ActionButtons(card.supportTierId, editor.CardSupporters(card), editor.OnlySupportTier(card))[0].disabled
  {
  }

  /** With two or more persisted tiers, an unsupported persisted card can be deleted. */
  lemma UnsupportedTierCanBeDeleted(editor: SupportTiersEditor, card: AbstractSupportTier)
    requires |editor.concreteSupportTiers| != 1 && card.supportTierId.Some?
    requires editor.CardSupporters(card) == 0
    ensures !ActionButtons(card.supportTierId, editor.CardSupporters(card), editor.OnlySupportTier(card))[0].disabled
  {
  }

  /** Adding a card and removing it again restores the cards shown. */
  method AddThenRemove(editor: SupportTiersEditor)
    modifies editor
    ensures editor.supportTierCards == old(editor.supportTierCards)
  {
    var n := |editor.supportTierCards|;
    editor.AddSupportTier();
    editor.RemoveSupportTierCard(n);
    RemoveUndoesAppend(old(editor.supportTierCards), BlankCard);
  }
}
