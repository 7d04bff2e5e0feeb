/**
 * The request shapes of the client's server interface: the URLs it addresses, the
 * filter parameters of the petition search and the bodies it builds conditionally.
 * Sending the requests, the authorisation header and the responses are outside the model.
 */
module Api {
  import opened Js
  import opened Decimal

  const RootUrl: string := "http://localhost:4941/api/v1"

  // ---------------------------------------------------------------------------
  // URLs
  // ---------------------------------------------------------------------------

  /** `rootUrl + "/petitions/" + petitionId`. */
  function PetitionUrl(petitionId: int): string {
    RootUrl + "/petitions/" + IntToString(petitionId)
  }

  /** `petitionImageUrl`. */
  function PetitionImageUrl(petitionId: int): string {
    RootUrl + "/petitions/" + IntToString(petitionId) + "/image"
  }

  /** `userImageUrl`. */
  function UserImageUrl(userId: int): string {
    RootUrl + "/users/" + IntToString(userId) + "/image"
  }

  /** Where support tiers of a petition are created. */
  function SupportTiersUrl(petitionId: int): string {
    RootUrl + "/petitions/" + IntToString(petitionId) + "/supportTiers"
  }

  /** Where one support tier is edited or deleted. */
  function SupportTierUrl(petitionId: int, supportTierId: int): string {
    RootUrl + "/petitions/" + IntToString(petitionId) + "/supportTiers/" + IntToString(supportTierId)
  }

  /** Where the supporters of a petition are listed and support is posted. */
  function SupportersUrl(petitionId: int): string {
    RootUrl + "/petitions/" + IntToString(petitionId) + "/supporters"
  }

  /** Decimal texts hold no `/`, so a number followed by `/` can be read back off the front. */
  lemma NumberBeforeSlash(a: int, x: string, b: int, y: string)
    requires IntToString(a) + "/" + x == IntToString(b) + "/" + y
    ensures a == b && x == y
  {
    var sa, sb := IntToString(a), IntToString(b);
    var s := sa + "/" + x;
    assert '/' !in sa && '/' !in sb;
    IndexOfAfterPrefix(sa, '/', x);
    IndexOfAfterPrefix(sb, '/', y);
    assert s[..|sa|] == sa && s[..|sb|] == sb;
    IntToStringInjective(a, b);
    assert s[|sa| + 1..] == x && s[|sb| + 1..] == y;
  }

  /** Two texts that agree after a common prefix agree. */
  lemma DropCommonPrefix(p: string, x: string, y: string)
    requires p + x == p + y
    ensures x == y
  {
    assert x == (p + x)[|p|..];
    assert y == (p + y)[|p|..];
  }

  /** Distinct petitions have distinct image URLs. */
  lemma PetitionImageUrlInjective(a: int, b: int)
    requires PetitionImageUrl(a) == PetitionImageUrl(b)
    ensures a == b
  {
    var p := RootUrl + "/petitions/";
    assert PetitionImageUrl(a) == p + (IntToString(a) + "/" + "image");
    assert PetitionImageUrl(b) == p + (IntToString(b) + "/" + "image");
    DropCommonPrefix(p, IntToString(a) + "/" + "image", IntToString(b) + "/" + "image");
    NumberBeforeSlash(a, "image", b, "image");
  }

  /** Distinct users have distinct image URLs. */
  lemma UserImageUrlInjective(a: int, b: int)
    requires UserImageUrl(a) == UserImageUrl(b)
    ensures a == b
  {
    var p := RootUrl + "/users/";
    assert UserImageUrl(a) == p + (IntToString(a) + "/" + "image");
    assert UserImageUrl(b) == p + (IntToString(b) + "/" + "image");
    DropCommonPrefix(p, IntToString(a) + "/" + "image", IntToString(b) + "/" + "image");
    NumberBeforeSlash(a, "image", b, "image");
  }

  /** A petition image URL is never a user image URL. */
  lemma ImageUrlsDiffer(petitionId: int, userId: int)
    ensures PetitionImageUrl(petitionId) != UserImageUrl(userId)
  {
    var k := |RootUrl| + 1;
    assert PetitionImageUrl(petitionId)[k] == 'p';
    assert UserImageUrl(userId)[k] == 'u';
  }

  /** The support-tier URLs extend the petition URL: `/supportTiers`, and `/` and the tier id after it. */
  lemma SupportTierUrlsExtendPetitionUrl(petitionId: int, supportTierId: int)
    ensures SupportTiersUrl(petitionId) == PetitionUrl(petitionId) + "/supportTiers"
    ensures SupportTierUrl(petitionId, supportTierId) == SupportTiersUrl(petitionId) + "/" + IntToString(supportTierId)
    ensures SupportersUrl(petitionId) == PetitionUrl(petitionId) + "/supporters"
  {
  }

  /** Proof helper: the tier URL regrouped so that its petition id is followed by `/`. */
  lemma SupportTierUrlParts(p: int, t: int)
    ensures SupportTierUrl(p, t)
         == (RootUrl + "/petitions/") + (IntToString(p) + "/" + ("supportTiers/" + IntToString(t)))
  {
  }

  /** The tier URL names one petition and one tier: distinct pairs give distinct URLs. */
  lemma SupportTierUrlInjective(p1: int, t1: int, p2: int, t2: int)
    requires SupportTierUrl(p1, t1) == SupportTierUrl(p2, t2)
    ensures p1 == p2 && t1 == t2
  {
    var x1, x2 := "supportTiers/" + IntToString(t1), "supportTiers/" + IntToString(t2);
    SupportTierUrlParts(p1, t1);
    SupportTierUrlParts(p2, t2);
    DropCommonPrefix(RootUrl + "/petitions/", IntToString(p1) + "/" + x1, IntToString(p2) + "/" + x2);
    NumberBeforeSlash(p1, x1, p2, x2);
    DropCommonPrefix("supportTiers/", IntToString(t1), IntToString(t2));
    IntToStringInjective(t1, t2);
  }

  // ---------------------------------------------------------------------------
  // Search parameters
  // ---------------------------------------------------------------------------

  datatype SortOrder = AlphabeticalAsc | AlphabeticalDesc | CostAsc | CostDesc | CreatedAsc | CreatedDesc

  /** `GetFilteredPetitionsParams`: every filter is optional. */
  datatype FilterParams = FilterParams(
    startIndex: Option<int>,
    count: Option<int>,
    q: Option<string>,
    categoryIds: Option<seq<int>>,
    supportingCost: Option<real>,
    ownerId: Option<int>,
    supporterId: Option<int>,
    sortBy: Option<SortOrder>)

  const NoFilters: FilterParams := FilterParams(None, None, None, None, None, None, None, None)

  // ---------------------------------------------------------------------------
  // Request bodies
  // ---------------------------------------------------------------------------

  /** The body of a user-details update; an absent field is left as it is on the server. */
  datatype UserUpdate = UserUpdate(
    email: Option<string>,
    firstName: Option<string>,
    lastName: Option<string>,
    password: Option<string>,
    currentPassword: Option<string>)

  /**
   * `updateUserDetails`' body: each of email, first and last name goes in only when it is
   * non-empty; the two passwords go in together, both of them, when either is non-empty.
   * Reading an absent field as `""` gives back every argument.
   */
  method UpdateUserData(email: string, firstName: string, lastName: string,
                        password: string, currentPassword: string) returns (data: UserUpdate)
    ensures data.email.Some? <==> email != ""
    ensures data.firstName.Some? <==> firstName != ""
    ensures data.lastName.Some? <==> lastName != ""
    ensures data.password.Some? <==> (password != "" || currentPassword != "")
    ensures data.currentPassword.Some? <==> data.password.Some?
    ensures data.email.GetOr("") == email && data.firstName.GetOr("") == firstName
    ensures data.lastName.GetOr("") == lastName
    ensures data.password.GetOr("") == password && data.currentPassword.GetOr("") == currentPassword
  {
    data := UserUpdate(None, None, None, None, None);
    if TruthyString(email) {
      data := data.(email := Some(email));
    }
    if TruthyString(firstName) {
      data := data.(firstName := Some(firstName));
    }
    if TruthyString(lastName) {
      data := data.(lastName := Some(lastName));
    }
    if TruthyString(password) || TruthyString(currentPassword) {
      data := data.(password := Some(password), currentPassword := Some(currentPassword));
    }
  }

  /** The body of a support request. */
  datatype SupportData = SupportData(supportTierId: int, message: Option<string>)

  /** `message ? {supportTierId, message} : {supportTierId}`. */
  function SupportBody(supportTierId: int, message: string): (data: SupportData)
    ensures data.supportTierId == supportTierId
    ensures data.message.Some? <==> message != ""
    ensures data.message.GetOr("") == message
  {
    if TruthyString(message) then SupportData(supportTierId, Some(message)) else SupportData(supportTierId, None)
  }
}
