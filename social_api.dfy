/** src/api/socialApi.ts: the mock data source behind the store. */
module SocialApi {
  import opened Types

  /** The description every seed post shares. */
  const SeedDescription := "We're excited to announce the launch of our new product. This is a great opportunity to showcase our latest features and benefits."

  /** The canonical seed data: two accounts with three posts each. */
  const Seed: seq<Account> := [
    Account("1", "Twitter", 12000, 4.5, [
      Post("New product launch thread", SeedDescription, "2024-01-01", 500),
      Post("Weekly tips #5", SeedDescription, "2024-01-01", 1000),
      Post("AMA recap", SeedDescription, "2024-01-01", 69)
    ]),
    Account("2", "Instagram", 45000, 22.0, [
      Post("Sunset at the beach", SeedDescription, "2024-01-01", 233),
      Post("Behind the scenes", SeedDescription, "2024-01-01", 231),
      Post("Collaboration announcement", SeedDescription, "2024-01-01", 111)
    ])
  ]

  /**
   * `fetchAccounts` once its timer fires: a deep copy of the seed. Datatype values are immutable,
   * so the copy is the seed value itself and nothing a caller does to it can reach `Seed`.
   */
  function FetchAccounts(): (accounts: seq<Account>)
    ensures |accounts| == 2
    ensures accounts[0].id == "1" && accounts[0].name == "Twitter"
    ensures accounts[1].id == "2" && accounts[1].name == "Instagram"
    ensures forall i :: 0 <= i < |accounts| ==> |accounts[i].posts| == 3
    ensures DistinctIds(accounts) && FollowersNonNegative(accounts) && ViewsNonNegative(accounts)
  {
    Seed
  }
}
