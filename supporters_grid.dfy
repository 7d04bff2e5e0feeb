/**
 * The supporters panel of a petition: a map from tier id to tier title, rebuilt whenever
 * the tiers change, and either one card per supporter or a placeholder text.
 */
module SupportersGrid {
  import opened Js
  import opened ResponseBodies
  import opened JsMap

  /** Reference reading: the tier ids in order of first appearance. */
  function IdOrder(tiers: seq<SupportTier>): seq<int> {
    if tiers == [] then []
    else
      var before := IdOrder(tiers[..|tiers| - 1]);
      var id := tiers[|tiers| - 1].supportTierId;
      if id in before then before else before + [id]
  }

  /** Reference reading: the titles after `set`ting every tier in turn. */
  function Titles(tiers: seq<SupportTier>): map<int, string> {
    if tiers == [] then map[]
    else
      var last := tiers[|tiers| - 1];
      Titles(tiers[..|tiers| - 1])[last.supportTierId := last.title]
  }

  lemma TitlesStep(processed: seq<SupportTier>, t: SupportTier)
    ensures IdOrder(processed + [t])
         == if t.supportTierId in IdOrder(processed) then IdOrder(processed) else IdOrder(processed) + [t.supportTierId]
    ensures Titles(processed + [t]) == Titles(processed)[t.supportTierId := t.title]
  {
    assert (processed + [t])[..|processed|] == processed;
  }

  /** The map's keys are exactly the ids of the tiers, and its key order is `IdOrder`. */
  lemma {:induction false} TitlesKeys(tiers: seq<SupportTier>)
    ensures forall id :: id in Titles(tiers) <==> id in IdOrder(tiers)
    ensures forall id :: id in Titles(tiers) <==> exists k :: 0 <= k < |tiers| && tiers[k].supportTierId == id
  {
    if tiers != [] {
      var before := tiers[..|tiers| - 1];
      TitlesKeys(before);
      assert forall k :: 0 <= k < |before| ==> before[k] == tiers[k];
    }
  }

  /** For a repeated id the last tier with that id gives the title. */
  lemma {:induction false} LastTitleWins(tiers: seq<SupportTier>, k: nat)
    requires k < |tiers|
    requires forall j :: k < j < |tiers| ==> tiers[j].supportTierId != tiers[k].supportTierId
    ensures tiers[k].supportTierId in Titles(tiers)
    ensures Titles(tiers)[tiers[k].supportTierId] == tiers[k].title
  {
    if k < |tiers| - 1 {
      var before := tiers[..|tiers| - 1];
      assert before[k] == tiers[k];
      LastTitleWins(before, k);
    }
  }

  /** The tier map holds what setting the processed tiers gives. */
  predicate TitlesHold(m: OrderedMap<int, string>, processed: seq<SupportTier>)
    reads m
  {
    && m.Valid()
    && m.keys == IdOrder(processed)
    && m.vals == Titles(processed)
  }

  /** The effect's loop: a fresh map, and `set(id, title)` for every tier in turn. */
  method BuildSupportTierMap(supportTiers: seq<SupportTier>) returns (m: OrderedMap<int, string>)
    ensures fresh(m)
    ensures TitlesHold(m, supportTiers)
  {
    m := new OrderedMap<int, string>();
    var i := 0;
    while i < |supportTiers|
      invariant 0 <= i <= |supportTiers|
      invariant fresh(m)
      invariant TitlesHold(m, supportTiers[..i])
    {
      var t := supportTiers[i];
      TitlesStep(supportTiers[..i], t);
      m.Set(t.supportTierId, t.title);
      assert supportTiers[..i + 1] == supportTiers[..i] + [t];
      i := i + 1;
    }
    assert supportTiers[..i] == supportTiers;
  }

  /** A supporter's card, handed the tier map to look its tier up in. */
  datatype SupporterCard = SupporterCard(supporter: Supporter, supportTierTitles: map<int, string>)

  /** What the panel shows. */
  datatype Panel = Placeholder(text: string) | Cards(cards: seq<SupporterCard>)

  const NoSupportersText := "No supporters yet"

  /** The placeholder for no supporters; otherwise one card per supporter, in order. */
  function ShownPanel(supporters: seq<Supporter>, titles: map<int, string>): (p: Panel)
    ensures p.Placeholder? <==> supporters == []
    ensures p.Placeholder? ==> p.text == NoSupportersText
    ensures p.Cards? ==> |p.cards| == |supporters|
                         && forall i :: 0 <= i < |supporters| ==> p.cards[i] == SupporterCard(supporters[i], titles)
  {
    if |supporters| > 0 then Cards(CardsOf(supporters, titles)) else Placeholder(NoSupportersText)
  }

  function CardsOf(supporters: seq<Supporter>, titles: map<int, string>): (cards: seq<SupporterCard>)
    ensures |cards| == |supporters|
    ensures forall i :: 0 <= i < |supporters| ==> cards[i] == SupporterCard(supporters[i], titles)
  {
    if supporters == [] then [] else [SupporterCard(supporters[0], titles)] + CardsOf(supporters[1..], titles)
  }

  class SupportersPanel {
    /** The supporters prop: empty until the page's supporters fetch resolves. */
    var supporters: seq<Supporter>
    var supportTiers: seq<SupportTier>
    var supportTierMap: OrderedMap<int, string>

    /** The panel before its effect has run: an empty map. */
    constructor (supporters: seq<Supporter>, supportTiers: seq<SupportTier>)
      ensures this.supporters == supporters && this.supportTiers == supportTiers
      ensures fresh(supportTierMap) && supportTierMap.Valid()
      ensures supportTierMap.keys == [] && supportTierMap.vals == map[]
    {
      this.supporters := supporters;
      this.supportTiers := supportTiers;
      supportTierMap := new OrderedMap<int, string>();
    }

    /**
     * The tiers changed: the map is built afresh from them, so it holds no id of the
     * tiers it was built from before.
     */
    method TiersChanged(tiers: seq<SupportTier>)
      modifies this
      ensures supportTiers == tiers && supporters == old(supporters)
      ensures fresh(supportTierMap)
      ensures TitlesHold(supportTierMap, tiers)
    {
      supportTiers := tiers;
      supportTierMap := BuildSupportTierMap(tiers);
    }

    function Shown(): (p: Panel)
      reads this, supportTierMap
    {
      ShownPanel(supporters, supportTierMap.vals)
    }

    /**
     * The parent passed a new supporters list: the panel shows it against the map it
     * already holds, which only a change of tiers rebuilds.
     */
    method SupportersChanged(newSupporters: seq<Supporter>)
      modifies this
      ensures supporters == newSupporters
      ensures supportTiers == old(supportTiers) && supportTierMap == old(supportTierMap)
      ensures Shown().Placeholder? <==> newSupporters == []
      ensures Shown().Cards? ==> |Shown().cards| == |newSupporters|
    {
      supporters := newSupporters;
    }
  }

  /** After a change of tiers, an id only the old tiers had is gone from the map. */
  method NoStaleIds(panel: SupportersPanel, tiers: seq<SupportTier>, staleId: int)
    requires forall k :: 0 <= k < |tiers| ==> tiers[k].supportTierId != staleId
    modifies panel
    ensures !panel.supportTierMap.Has(staleId)
  {
    panel.TiersChanged(tiers);
    TitlesKeys(tiers);
  }
}
