/**
 * The petition page: the de-duplicating merge of the "similar petitions" searches, the
 * tiers the current user may still support, the owner's buttons and which set of action
 * buttons a visitor gets.
 */
module Petition {
  import opened Js
  import opened ResponseBodies
  import opened JsMap
  import opened Api
  import opened SelectTierModal

  // ---------------------------------------------------------------------------
  // Similar petitions
  // ---------------------------------------------------------------------------

  /** The searches for similar petitions: same category, and same owner; none until both are known. */
  function SimilarQueries(categoryId: Option<int>, ownerId: Option<int>): (qs: seq<FilterParams>)
    ensures qs == [] <==> categoryId.None? || ownerId.None?
    ensures qs != [] ==> |qs| == 2
                         && qs[0] == NoFilters.(categoryIds := Some([categoryId.value]))
                         && qs[1] == NoFilters.(ownerId := Some(ownerId.value))
  {
    if categoryId.Some? && ownerId.Some? then
      [NoFilters.(categoryIds := Some([categoryId.value])), NoFilters.(ownerId := Some(ownerId.value))]
    else []
  }

  /** All result lists, one after the other. */
  function Flatten(rs: seq<seq<PetitionOverview>>): seq<PetitionOverview> {
    if rs == [] then [] else Flatten(rs[..|rs| - 1]) + rs[|rs| - 1]
  }

  /** The petitions other than the current one (an unparsable current id, NaN, excludes none). */
  function Keep(s: seq<PetitionOverview>, currentId: Option<int>): seq<PetitionOverview> {
    if s == [] then []
    else
      var last := s[|s| - 1];
      Keep(s[..|s| - 1], currentId) + if currentId != Some(last.petitionId) then [last] else []
  }

  /** Exactly the petitions with another id are kept. */
  lemma {:induction false} KeepMembers(s: seq<PetitionOverview>, currentId: Option<int>)
    ensures forall p :: p in Keep(s, currentId) <==> p in s && currentId != Some(p.petitionId)
  {
    if s != [] {
      var last := s[|s| - 1];
      KeepMembers(s[..|s| - 1], currentId);
      assert forall p :: p in s <==> p in s[..|s| - 1] || p == last;
    }
  }

  /** The distinct ids, in the order each first appears. */
  function FirstOrder(c: seq<PetitionOverview>): seq<int> {
    if c == [] then []
    else
      var ids := FirstOrder(c[..|c| - 1]);
      if c[|c| - 1].petitionId in ids then ids else ids + [c[|c| - 1].petitionId]
  }

  /** For each id, the last petition carrying it. */
  function Latest(c: seq<PetitionOverview>): map<int, PetitionOverview> {
    if c == [] then map[] else Latest(c[..|c| - 1])[c[|c| - 1].petitionId := c[|c| - 1]]
  }

  /** Where an id first appears. */
  function FirstIndex(c: seq<PetitionOverview>, id: int): Option<nat> {
    if c == [] then None
    else match FirstIndex(c[..|c| - 1], id)
      case Some(k) => Some(k)
      case None => if c[|c| - 1].petitionId == id then Some(|c| - 1) else None
  }

  lemma {:induction false} FirstIndexFacts(c: seq<PetitionOverview>, id: int)
    ensures FirstIndex(c, id).Some? <==> exists k :: 0 <= k < |c| && c[k].petitionId == id
    ensures FirstIndex(c, id).Some? ==>
              var k := FirstIndex(c, id).value;
              k < |c| && c[k].petitionId == id && forall j :: 0 <= j < k ==> c[j].petitionId != id
  {
    if c != [] {
      var c' := c[..|c| - 1];
      FirstIndexFacts(c', id);
      assert forall k :: 0 <= k < |c'| ==> c'[k] == c[k];
    }
  }

  /** The ids listed are the ids present, each once. */
  lemma {:induction false} FirstOrderFacts(c: seq<PetitionOverview>)
    ensures Distinct(FirstOrder(c))
    ensures forall id :: id in FirstOrder(c) <==> id in Latest(c)
    ensures forall id :: id in FirstOrder(c) <==> FirstIndex(c, id).Some?
  {
    if c != [] {
      FirstOrderFacts(c[..|c| - 1]);
    }
  }

  /** The ids listed are ordered by where they first appear. */
  lemma {:induction false} FirstOrderIsByFirstIndex(c: seq<PetitionOverview>)
    ensures forall id :: id in FirstOrder(c) ==> FirstIndex(c, id).Some?
    ensures forall i, j :: 0 <= i < j < |FirstOrder(c)| ==>
              FirstIndex(c, FirstOrder(c)[i]).value < FirstIndex(c, FirstOrder(c)[j]).value
  {
    FirstOrderFacts(c);
    if c != [] {
      var c' := c[..|c| - 1];
      FirstOrderFacts(c');
      FirstOrderIsByFirstIndex(c');
      forall id | FirstIndex(c', id).Some?
        ensures FirstIndex(c', id).value < |c'|
      {
        FirstIndexFacts(c', id);
      }
    }
  }

  /** Each petition is stored under its own id. */
  lemma {:induction false} LatestIsKeyed(c: seq<PetitionOverview>)
    ensures forall id :: id in Latest(c) ==> Latest(c)[id].petitionId == id
  {
    if c != [] {
      LatestIsKeyed(c[..|c| - 1]);
    }
  }

  /** `Latest(c)[id]` is the last petition of `c` with that id. */
  lemma {:induction false} LatestIsLast(c: seq<PetitionOverview>, id: int)
    requires id in Latest(c)
    ensures exists k :: 0 <= k < |c| && c[k] == Latest(c)[id]
                        && forall j :: k < j < |c| ==> c[j].petitionId != id
  {
    var c' := c[..|c| - 1];
    if c[|c| - 1].petitionId != id {
      LatestIsLast(c', id);
      var k :| 0 <= k < |c'| && c'[k] == Latest(c')[id]
               && forall j :: k < j < |c'| ==> c'[j].petitionId != id;
      assert c[k] == c'[k];
      assert forall j :: k < j < |c'| ==> c[j] == c'[j];
    }
  }

  /** The merged list: one entry per id, in first-appearance order, holding the latest petition. */
  function Merged(c: seq<PetitionOverview>): (r: seq<PetitionOverview>)
    ensures |r| == |FirstOrder(c)|
    ensures forall i :: 0 <= i < |r| ==> FirstOrder(c)[i] in Latest(c) && r[i] == Latest(c)[FirstOrder(c)[i]]
  {
    FirstOrderFacts(c);
    var ids := FirstOrder(c);
    assert forall i :: 0 <= i < |ids| ==> ids[i] in ids;
    ValuesAt(ids, Latest(c))
  }

  /** The i-th merged entry carries the i-th id. */
  lemma MergedIds(c: seq<PetitionOverview>)
    ensures forall i :: 0 <= i < |Merged(c)| ==> Merged(c)[i].petitionId == FirstOrder(c)[i]
  {
    LatestIsKeyed(c);
  }

  lemma KeepStep(before: seq<PetitionOverview>, p: PetitionOverview, currentId: Option<int>)
    ensures currentId != Some(p.petitionId) ==> Keep(before + [p], currentId) == Keep(before, currentId) + [p]
    ensures currentId == Some(p.petitionId) ==> Keep(before + [p], currentId) == Keep(before, currentId)
  {
    assert (before + [p])[..|before|] == before;
    assert Keep(before, currentId) + [] == Keep(before, currentId);
  }

  lemma SetStep(kept: seq<PetitionOverview>, p: PetitionOverview)
    ensures FirstOrder(kept + [p])
         == if p.petitionId in FirstOrder(kept) then FirstOrder(kept) else FirstOrder(kept) + [p.petitionId]
    ensures Latest(kept + [p]) == Latest(kept)[p.petitionId := p]
  {
    assert (kept + [p])[..|kept|] == kept;
  }

  lemma FlattenStep(responses: seq<seq<PetitionOverview>>, i: nat)
    requires i < |responses|
    ensures Flatten(responses[..i + 1]) == Flatten(responses[..i]) + responses[i]
  {
    assert responses[..i + 1][..i] == responses[..i];
  }

  lemma PrefixStep<T>(a: seq<T>, s: seq<T>, j: nat)
    requires j < |s|
    ensures a + s[..j + 1] == (a + s[..j]) + [s[j]]
  {
    assert s[..j + 1] == s[..j] + [s[j]];
  }

  /** The map holds, in insertion order, what setting every kept petition of `done` gives. */
  predicate MapHolds(m: OrderedMap<int, PetitionOverview>, done: seq<PetitionOverview>, currentId: Option<int>)
    reads m
  {
    && m.Valid()
    && m.keys == FirstOrder(Keep(done, currentId))
    && m.vals == Latest(Keep(done, currentId))
  }

  /** One `set` of the inner loop keeps the map equal to the reference reading of what was processed. */
  lemma SetKeepsReading(keys: seq<int>, vals: map<int, PetitionOverview>, processed: seq<PetitionOverview>,
                        p: PetitionOverview, currentId: Option<int>)
    requires keys == FirstOrder(Keep(processed, currentId)) && vals == Latest(Keep(processed, currentId))
    requires forall k :: k in vals <==> k in keys
    ensures currentId != Some(p.petitionId) ==>
              && KeysAfterSet(keys, vals.Keys, p.petitionId) == FirstOrder(Keep(processed + [p], currentId))
              && vals[p.petitionId := p] == Latest(Keep(processed + [p], currentId))
    ensures currentId == Some(p.petitionId) ==>
              keys == FirstOrder(Keep(processed + [p], currentId))
              && vals == Latest(Keep(processed + [p], currentId))
  {
    KeepStep(processed, p, currentId);
    if currentId != Some(p.petitionId) {
      SetStep(Keep(processed, currentId), p);
    }
  }

  /** The inner loop: `set` every petition of one result list other than the current one. */
  method SetAll(m: OrderedMap<int, PetitionOverview>, ghost done: seq<PetitionOverview>,
                petitions: seq<PetitionOverview>, currentId: Option<int>)
    requires MapHolds(m, done, currentId)
    modifies m
    ensures MapHolds(m, done + petitions, currentId)
  {
    ghost var processed := done;
    var j := 0;
    while j < |petitions|
      invariant 0 <= j <= |petitions|
      invariant processed == done + petitions[..j]
      invariant MapHolds(m, processed, currentId)
    {
      var p := petitions[j];
      SetKeepsReading(m.keys, m.vals, processed, p, currentId);
      if currentId != Some(p.petitionId) {
        m.Set(p.petitionId, p);
      }
      PrefixStep(done, petitions, j);
      processed := processed + [p];
      j := j + 1;
    }
    assert petitions[..j] == petitions;
  }

  /**
   * The merge: every result list in turn, every petition other than the current one `set`
   * under its id in one map, and the map's values at the end.
   */
  method MergeSimilarPetitions(responses: seq<seq<PetitionOverview>>, currentId: Option<int>)
    returns (similar: seq<PetitionOverview>)
    ensures similar == Merged(Keep(Flatten(responses), currentId))
  {
    var m := new OrderedMap<int, PetitionOverview>();
    assert responses[..0] == [];
    var i := 0;
    while i < |responses|
      invariant 0 <= i <= |responses|
      invariant fresh(m)
      invariant MapHolds(m, Flatten(responses[..i]), currentId)
    {
      SetAll(m, Flatten(responses[..i]), responses[i], currentId);
      FlattenStep(responses, i);
      i := i + 1;
    }
    assert responses[..i] == responses;
    similar := m.Values();
  }

  /** The merged similar petitions never include the current petition. */
  lemma MergedExcludesCurrent(responses: seq<seq<PetitionOverview>>, currentId: int)
    ensures forall p :: p in Merged(Keep(Flatten(responses), Some(currentId))) ==> p.petitionId != currentId
  {
    var c := Keep(Flatten(responses), Some(currentId));
    KeepMembers(Flatten(responses), Some(currentId));
    forall p | p in Merged(c)
      ensures p.petitionId != currentId
    {
      var i :| 0 <= i < |Merged(c)| && Merged(c)[i] == p;
      LatestIsLast(c, FirstOrder(c)[i]);
    }
  }

  /** No two merged entries share an id. */
  lemma MergedIdsDistinct(c: seq<PetitionOverview>)
    ensures forall i, j :: 0 <= i < j < |Merged(c)| ==> Merged(c)[i].petitionId != Merged(c)[j].petitionId
  {
    MergedIds(c);
    FirstOrderFacts(c);
  }

  /** Every petition found is represented by an entry with its id. */
  lemma MergedCoversAll(c: seq<PetitionOverview>, p: PetitionOverview)
    requires p in c
    ensures exists i :: 0 <= i < |Merged(c)| && Merged(c)[i].petitionId == p.petitionId
  {
    var k :| 0 <= k < |c| && c[k] == p;
    FirstIndexFacts(c, p.petitionId);
    FirstOrderFacts(c);
    MergedIds(c);
    var ids := FirstOrder(c);
    var i :| 0 <= i < |ids| && ids[i] == p.petitionId;
    assert Merged(c)[i].petitionId == p.petitionId;
  }

  /** A later duplicate replaces an earlier one: each entry is the last petition found with its id. */
  lemma MergedKeepsLast(c: seq<PetitionOverview>, i: nat)
    requires i < |Merged(c)|
    ensures exists k :: 0 <= k < |c| && c[k] == Merged(c)[i]
                        && forall j :: k < j < |c| ==> c[j].petitionId != Merged(c)[i].petitionId
  {
    MergedIds(c);
    LatestIsLast(c, FirstOrder(c)[i]);
  }

  /** The entries are in order of the first appearance of their ids. */
  lemma MergedInFirstOrder(c: seq<PetitionOverview>, i: nat, j: nat)
    requires i < j < |Merged(c)|
    ensures FirstIndex(c, Merged(c)[i].petitionId).Some? && FirstIndex(c, Merged(c)[j].petitionId).Some?
    ensures FirstIndex(c, Merged(c)[i].petitionId).value < FirstIndex(c, Merged(c)[j].petitionId).value
  {
    MergedIds(c);
    FirstOrderIsByFirstIndex(c);
  }

  // ---------------------------------------------------------------------------
  // Tiers, buttons, roles
  // ---------------------------------------------------------------------------

  /** The petition page's list of tiers the signed-in user can still support. */
  lemma SupportableTiersOnPage(tiers: seq<SupportTier>, supporters: seq<Supporter>, userId: int, t: SupportTier)
    ensures t in SupportableTiers(tiers, SupportedTierIds(supporters, Some(userId)))
        <==> t in tiers && !exists s :: s in supporters && s.supporterId == userId && s.supportTierId == t.supportTierId
  {
  }

  datatype OwnerButton = EditPetitionButton | DeletePetitionButton

  /** The owner's buttons: edit always, delete only while the petition has no supporters. */
  function OwnerButtons(numberOfSupporters: Option<int>): (buttons: seq<OwnerButton>)
    ensures EditPetitionButton in buttons
    ensures DeletePetitionButton in buttons <==> numberOfSupporters == Some(0)
  {
    [EditPetitionButton] + if numberOfSupporters == Some(0) then [DeletePetitionButton] else []
  }

  datatype Role = Owner | Unauthenticated | SupporterRole

  /**
   * The action buttons a visitor gets: the owner's when the signed-in user owns the
   * petition, the sign-in prompt when nobody is signed in, the supporter's otherwise.
   * An unknown owner (NaN) is nobody's petition.
   */
  function RoleOf(ownerId: Option<int>, userId: Option<int>): (r: Role)
    ensures r == Owner <==> userId.Some? && ownerId == userId
    ensures r == Unauthenticated <==> userId.None?
    ensures r == SupporterRole <==> userId.Some? && ownerId != userId
  {
    if ownerId.Some? && userId.Some? && ownerId.value == userId.value then Owner
    else if userId.None? then Unauthenticated
    else SupporterRole
  }
}
