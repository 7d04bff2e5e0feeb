/**
 * The server's response records that the client's logic looks at. Only the fields the
 * modelled logic reads or writes are kept.
 */
module ResponseBodies {
  import opened Js

  /** A support tier of a petition as the server returns it. */
  datatype SupportTier = SupportTier(supportTierId: int, title: string, description: string, cost: real)

  /** One pledge of support: who supported (`supporterId`) which tier (`supportTierId`). */
  datatype Supporter = Supporter(
    supportId: int,
    supportTierId: int,
    supporterId: int,
    message: Option<string>,
    supporterFirstName: string,
    supporterLastName: string,
    timestamp: string)

  /** A petition in a filtered list. */
  datatype PetitionOverview = PetitionOverview(
    petitionId: int,
    title: string,
    categoryId: int,
    ownerId: int,
    numberOfSupporters: int,
    supportingCost: real)

  /** A tier cost that may still be blank (`number | ""`). */
  datatype TierCost = BlankCost | Cost(amount: real)

  /**
   * A tier being edited: persisted tiers carry their id, a card that has not been
   * created on the server yet has none (`supportTierId?: number`).
   */
  datatype AbstractSupportTier = AbstractSupportTier(
    supportTierId: Option<int>,
    title: string,
    description: string,
    cost: TierCost)

  /** A persisted tier seen as an editable one. */
  function AsAbstract(t: SupportTier): AbstractSupportTier {
    AbstractSupportTier(Some(t.supportTierId), t.title, t.description, Cost(t.cost))
  }
}
