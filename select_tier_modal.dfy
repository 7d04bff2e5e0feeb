/**
 * Choosing a tier to support: the tiers the current user has not supported yet, and the
 * selection state of the modal that lists them.
 */
module SelectTierModal {
  import opened Js
  import opened ResponseBodies

  /**
   * The tiers the user supports already: the tier of every supporter record of theirs. With
   * nobody signed in (`parseInt(null)` is NaN) there are none.
   */
  function SupportedTierIds(supporters: seq<Supporter>, userId: Option<int>): (ids: seq<int>)
    ensures forall id :: id in ids <==>
              exists s :: s in supporters && userId == Some(s.supporterId) && s.supportTierId == id
    ensures userId.None? ==> ids == []
  {
    if supporters == [] then []
    else
      var rest := SupportedTierIds(supporters[1..], userId);
      assert forall s :: s in supporters[1..] ==> s in supporters;
      assert forall s :: s in supporters ==> s == supporters[0] || s in supporters[1..];
      if userId == Some(supporters[0].supporterId) then [supporters[0].supportTierId] + rest else rest
  }

  /** `a` is `b` with some elements left out, the rest kept in order. */
  predicate IsSubsequence<T(==)>(a: seq<T>, b: seq<T>)
    decreases |b|
  {
    if a == [] then true
    else if b == [] then false
    else (a[0] == b[0] && IsSubsequence(a[1..], b[1..])) || IsSubsequence(a, b[1..])
  }

  /** The number of tiers whose id is in `ids`. */
  function CountIn(tiers: seq<SupportTier>, ids: seq<int>): nat {
    if tiers == [] then 0 else (if tiers[0].supportTierId in ids then 1 else 0) + CountIn(tiers[1..], ids)
  }

  /**
   * `supportTiers.filter(t => !supportedTiers.includes(t.supportTierId))`: every tier not
   * supported yet, in the original order, and no other; one tier is dropped per supported one.
   */
  function SupportableTiers(tiers: seq<SupportTier>, supported: seq<int>): (r: seq<SupportTier>)
    ensures forall t :: t in r <==> t in tiers && t.supportTierId !in supported
    ensures IsSubsequence(r, tiers)
    ensures |r| == |tiers| - CountIn(tiers, supported)
  {
    if tiers == [] then []
    else
      var rest := SupportableTiers(tiers[1..], supported);
      assert forall t :: t in tiers[1..] ==> t in tiers;
      assert forall t :: t in tiers ==> t == tiers[0] || t in tiers[1..];
      if tiers[0].supportTierId in supported then rest
      else
        assert ([tiers[0]] + rest)[1..] == rest;
        [tiers[0]] + rest
  }

  /** Nobody signed in: every tier can be supported. */
  lemma SignedOutSeesAllTiers(tiers: seq<SupportTier>, supporters: seq<Supporter>)
    ensures SupportableTiers(tiers, SupportedTierIds(supporters, None)) == tiers
  {
    SupportableOfNone(tiers);
  }

  lemma {:induction false} SupportableOfNone(tiers: seq<SupportTier>)
    ensures SupportableTiers(tiers, []) == tiers
  {
    if tiers != [] {
      SupportableOfNone(tiers[1..]);
    }
  }

  /** A tier the user has supported with one of their records is never offered again. */
  lemma SupportedTierIsHidden(tiers: seq<SupportTier>, supporters: seq<Supporter>, s: Supporter, t: SupportTier)
    requires s in supporters && t.supportTierId == s.supportTierId
    ensures t !in SupportableTiers(tiers, SupportedTierIds(supporters, Some(s.supporterId)))
  {
  }

  /** The modal's state, with the parent's `open` flag that its `onClose` clears. */
  class TierSelection {
    const supporters: seq<Supporter>
    const supportTiers: seq<SupportTier>
    const userId: Option<int>
    var open: bool
    var selectedSupportTier: Option<SupportTier>
    var showMessageModal: bool

    constructor (supporters: seq<Supporter>, supportTiers: seq<SupportTier>, userId: Option<int>)
      ensures this.supporters == supporters && this.supportTiers == supportTiers && this.userId == userId
      ensures open && selectedSupportTier == None && !showMessageModal
    {
      this.supporters := supporters;
      this.supportTiers := supportTiers;
      this.userId := userId;
      open := true;
      selectedSupportTier := None;
      showMessageModal := false;
    }

    /** The tier cards on offer. */
    function Cards(): seq<SupportTier>
      reads this
    {
      SupportableTiers(supportTiers, SupportedTierIds(supporters, userId))
    }

    /** The message step is on screen: a tier is selected and its modal open. */
    predicate MessageModalShown()
      reads this
    {
      selectedSupportTier.Some? && showMessageModal
    }

    /** Clicking the i-th card selects that tier and opens the message step over the list. */
    method ClickTier(i: nat)
      requires i < |Cards()|
      modifies this
      ensures selectedSupportTier == Some(old(Cards())[i]) && showMessageModal && open == old(open)
      ensures MessageModalShown()
      ensures selectedSupportTier.value in supportTiers
    {
      assert Cards()[i] in Cards();
      selectedSupportTier := Some(Cards()[i]);
      showMessageModal := true;
    }

    /** Closing the message step closes the list too; the selection stays. */
    method CloseMessageModal()
      modifies this
      ensures !open && !showMessageModal && selectedSupportTier == old(selectedSupportTier)
      ensures !MessageModalShown()
    {
      open := false;
      showMessageModal := false;
    }

    /** The Cancel button: only the list closes. */
    method Cancel()
      modifies this
      ensures !open && showMessageModal == old(showMessageModal)
      ensures selectedSupportTier == old(selectedSupportTier)
    {
      open := false;
    }
  }
}
