/** src/pages/Dashboard/Dashboard.tsx: the search filter over the account list and its follower total. */
module Dashboard {
  import opened Types
  import opened Text

  /** `accounts.filter(a => a.name.toLowerCase().includes(q))`. */
  function Matching(accounts: seq<Account>, q: string): (r: seq<Account>)
    ensures |r| <= |accounts|
    ensures forall a :: a in r <==> a in accounts && Contains(ToLower(a.name), q)
  {
    if accounts == [] then []
    else if Contains(ToLower(accounts[0].name), q) then [accounts[0]] + Matching(accounts[1..], q)
    else Matching(accounts[1..], q)
  }

  /** `filteredAccounts`: a blank query shows every account, any other query the matching ones. */
  function FilteredAccounts(accounts: seq<Account>, searchQuery: string): (r: seq<Account>)
    ensures |r| <= |accounts|
    ensures AllSpace(searchQuery) ==> r == accounts
    ensures !AllSpace(searchQuery) ==>
              forall a :: a in r <==> a in accounts && Contains(ToLower(a.name), ToLower(Trim(searchQuery)))
  {
    if Trim(searchQuery) == "" then accounts
    else Matching(accounts, ToLower(Trim(searchQuery)))
  }

  /** `r` is `s` with some entries left out and the rest in their original order. */
  predicate IsSubsequence(r: seq<Account>, s: seq<Account>) {
    if r == [] then true
    else if s == [] then false
    else if r[0] == s[0] then IsSubsequence(r[1..], s[1..])
    else IsSubsequence(r, s[1..])
  }

  lemma {:induction false} SubsequenceReflexive(s: seq<Account>)
    ensures IsSubsequence(s, s)
  {
    if s != [] {
      SubsequenceReflexive(s[1..]);
    }
  }

  lemma {:induction false} MatchingIsSubsequence(accounts: seq<Account>, q: string)
    ensures IsSubsequence(Matching(accounts, q), accounts)
  {
    if accounts != [] {
      MatchingIsSubsequence(accounts[1..], q);
    }
  }

  /** A query made only of white space (or empty) shows the list unchanged. */
  lemma BlankQueryShowsAll(accounts: seq<Account>, searchQuery: string)
    requires AllSpace(searchQuery)
    ensures FilteredAccounts(accounts, searchQuery) == accounts
  {
  }

  /** The filtered list keeps the order of the accounts it shows. */
  lemma FilteredIsSubsequence(accounts: seq<Account>, searchQuery: string)
    ensures IsSubsequence(FilteredAccounts(accounts, searchQuery), accounts)
  {
    if Trim(searchQuery) == "" {
      SubsequenceReflexive(accounts);
    } else {
      MatchingIsSubsequence(accounts, ToLower(Trim(searchQuery)));
    }
  }

  /** With a non-blank query, an account is shown exactly when its lower-cased name contains the query. */
  lemma FilterKeepsExactlyMatches(accounts: seq<Account>, searchQuery: string, a: Account)
    requires !AllSpace(searchQuery)
    ensures a in FilteredAccounts(accounts, searchQuery)
        <==> a in accounts && Contains(ToLower(a.name), ToLower(Trim(searchQuery)))
  {
  }

  /** Queries that differ only in the case of their letters show the same accounts. */
  lemma FilterIgnoresQueryCase(accounts: seq<Account>, q1: string, q2: string)
    requires ToLower(q1) == ToLower(q2)
    ensures FilteredAccounts(accounts, q1) == FilteredAccounts(accounts, q2)
  {
    TrimToLowerCommute(q1);
    TrimToLowerCommute(q2);
    assert |ToLower(Trim(q1))| == |Trim(q1)|;
    assert |ToLower(Trim(q2))| == |Trim(q2)|;
  }

  /** `reduce((sum, a) => sum + a.followers, 0)`: the sum, never negative when no count is. */
  function TotalFollowers(accounts: seq<Account>): (total: int)
    ensures accounts == [] ==> total == 0
    ensures FollowersNonNegative(accounts) ==> total >= 0
  {
    if accounts == [] then 0
    else
      assert forall i :: 0 <= i < |accounts| - 1 ==> accounts[1..][i] == accounts[i + 1];
      accounts[0].followers + TotalFollowers(accounts[1..])
  }

  /** With no negative follower counts, the filtered total lies between 0 and the overall total. */
  lemma {:induction false} MatchingTotalBounded(accounts: seq<Account>, q: string)
    requires FollowersNonNegative(accounts)
    ensures 0 <= TotalFollowers(Matching(accounts, q)) <= TotalFollowers(accounts)
  {
    if accounts != [] {
      assert FollowersNonNegative(accounts[1..]) by {
        forall i | 0 <= i < |accounts| - 1 ensures accounts[1..][i].followers >= 0 {
          assert accounts[1..][i] == accounts[i + 1];
        }
      }
      MatchingTotalBounded(accounts[1..], q);
      if Contains(ToLower(accounts[0].name), q) {
        var rest := Matching(accounts[1..], q);
        assert ([accounts[0]] + rest)[1..] == rest;
      }
    }
  }

  /** `totalFollowersFiltered` never exceeds the total over all accounts. */
  lemma FilteredTotalBounded(accounts: seq<Account>, searchQuery: string)
    requires FollowersNonNegative(accounts)
    ensures 0 <= TotalFollowers(FilteredAccounts(accounts, searchQuery)) <= TotalFollowers(accounts)
  {
    if Trim(searchQuery) == "" {
      MatchingTotalBounded([], "");
      assert TotalFollowers(accounts) >= 0 by { MatchingTotalBounded(accounts, ""); }
    } else {
      MatchingTotalBounded(accounts, ToLower(Trim(searchQuery)));
    }
  }

  /** The two accounts the dashboard is exercised with. */
  const SampleAccounts := [
    Account("1", "Twitter", 12000, 4.5, []),
    Account("2", "Instagram", 45000, 22.0, [])
  ]

  /** With no query both accounts show, 57000 followers in all. */
  lemma SampleTotal()
    ensures TotalFollowers(FilteredAccounts(SampleAccounts, "")) == 57000
  {
  }

  /** The query "Twitter" keeps Twitter and drops Instagram. */
  lemma SampleSearchTwitter()
    ensures FilteredAccounts(SampleAccounts, "Twitter") == [SampleAccounts[0]]
  {
    var query := "Twitter";
    TrimOfTrimmed(query);
    var q := ToLower(query);
    assert q == "twitter";
    assert OccursAt(ToLower(SampleAccounts[0].name), q, 0);
    TwitterNotInInstagram();
    assert SampleAccounts[1..] == [SampleAccounts[1]];
    assert Matching([SampleAccounts[1]], q) == [];
  }

  lemma TwitterNotInInstagram()
    ensures ToLower("Instagram") == "instagram"
    ensures !Contains("instagram", "twitter")
  {
    forall i | 0 <= i <= 2 ensures !OccursAt("instagram", "twitter", i) {
      assert "instagram"[i..i + 7][0] == "instagram"[i];
    }
  }

  /** No account matches when no lower-cased name contains the query. */
  lemma {:induction false} NoMatchIsEmpty(accounts: seq<Account>, q: string)
    requires forall i :: 0 <= i < |accounts| ==> !Contains(ToLower(accounts[i].name), q)
    ensures Matching(accounts, q) == []
  {
    if accounts != [] {
      assert forall i :: 0 <= i < |accounts| - 1 ==> accounts[1..][i] == accounts[i + 1];
      NoMatchIsEmpty(accounts[1..], q);
    }
  }

  /** Every copy of a matching account is kept, and no copy of any other. */
  lemma {:induction false} MatchingCounts(accounts: seq<Account>, q: string, a: Account)
    ensures multiset(Matching(accounts, q))[a] == if Contains(ToLower(a.name), q) then multiset(accounts)[a] else 0
  {
    if accounts != [] {
      assert accounts == [accounts[0]] + accounts[1..];
      MatchingCounts(accounts[1..], q, a);
    }
  }

  /** A non-blank query that no lower-cased name contains gives an empty list. */
  lemma NoMatchGivesEmpty(accounts: seq<Account>, searchQuery: string)
    requires !AllSpace(searchQuery)
    requires forall i :: 0 <= i < |accounts| ==> !Contains(ToLower(accounts[i].name), ToLower(Trim(searchQuery)))
    ensures FilteredAccounts(accounts, searchQuery) == []
  {
    NoMatchIsEmpty(accounts, ToLower(Trim(searchQuery)));
  }
}
