/**
 * src/store/socialSlice.ts: the account store. The reducers change the state in place, so the store
 * is a class whose methods update its fields; what each one does to the list is given by a function
 * on values, and the lemmas about those functions state what the reducers promise.
 */
module SocialSlice {
  import opened Types
  import SocialApi

  /** `Array.prototype.findIndex` (and `find`) by id: the index of the first account with `id`, or -1. */
  function FirstIndexOf(list: seq<Account>, id: string): (k: int)
    ensures -1 <= k < |list|
    ensures k == -1 <==> !HasId(list, id)
    ensures 0 <= k ==> list[k].id == id && forall j :: 0 <= j < k ==> list[j].id != id
  {
    if |list| == 0 then -1
    else if list[0].id == id then 0
    else
      var k := FirstIndexOf(list[1..], id);
      assert forall j :: 1 <= j < |list| ==> list[j] == list[1..][j - 1];
      if k == -1 then -1 else k + 1
  }

  // ---------------------------------------------------------------------------------------------
  // updateAccount

  /** The list after `updateAccount(account)`: the first account with the same id is replaced. */
  function Updated(list: seq<Account>, account: Account): (r: seq<Account>)
    ensures |r| == |list|
    ensures !HasId(list, account.id) ==> r == list
  {
    var k := FirstIndexOf(list, account.id);
    if k == -1 then list else list[k := account]
  }

  /** Only the first account carrying the id is replaced; every other entry stays as it was. */
  lemma UpdateReplacesFirstMatch(list: seq<Account>, account: Account, k: int)
    requires 0 <= k < |list| && list[k].id == account.id
    requires forall j :: 0 <= j < k ==> list[j].id != account.id
    ensures Updated(list, account)[k] == account
    ensures forall j :: 0 <= j < |list| && j != k ==> Updated(list, account)[j] == list[j]
  {
  }

  /** After an update, looking the id up finds the new record, at the same place as before. */
  lemma UpdateThenFind(list: seq<Account>, account: Account)
    requires HasId(list, account.id)
    ensures FirstIndexOf(Updated(list, account), account.id) == FirstIndexOf(list, account.id)
    ensures Updated(list, account)[FirstIndexOf(list, account.id)] == account
  {
    var k := FirstIndexOf(list, account.id);
    var r := list[k := account];
    assert forall j :: 0 <= j < k ==> r[j] == list[j];
  }

  /** Applying the same update twice gives the same list as applying it once. */
  lemma UpdateIdempotent(list: seq<Account>, account: Account)
    ensures Updated(Updated(list, account), account) == Updated(list, account)
  {
    if HasId(list, account.id) {
      UpdateThenFind(list, account);
    }
  }

  // ---------------------------------------------------------------------------------------------
  // deleteAccount

  /** The list after `deleteAccount(id)`: `list.filter(a => a.id !== id)`. */
  function Deleted(list: seq<Account>, id: string): (r: seq<Account>)
    ensures |r| <= |list|
    ensures !HasId(r, id)
    ensures forall a :: a in r ==> a in list
    ensures forall a :: a in list && a.id != id ==> a in r
  {
    if list == [] then []
    else if list[0].id == id then Deleted(list[1..], id)
    else [list[0]] + Deleted(list[1..], id)
  }

  /** Deleting an id no account has leaves the list as it was. */
  lemma {:induction false} DeleteAbsent(list: seq<Account>, id: string)
    requires !HasId(list, id)
    ensures Deleted(list, id) == list
  {
    if list != [] {
      assert !HasId(list[1..], id) by {
        forall j | 0 <= j < |list| - 1 ensures list[1..][j].id != id {
          assert list[1..][j] == list[j + 1];
        }
      }
      DeleteAbsent(list[1..], id);
    }
  }

  /** Deleting again is a no-op. */
  lemma DeleteIdempotent(list: seq<Account>, id: string)
    ensures Deleted(Deleted(list, id), id) == Deleted(list, id)
  {
    DeleteAbsent(Deleted(list, id), id);
  }

  /** Deletion works piecewise, so the accounts that stay keep their relative order. */
  lemma {:induction false} DeleteConcat(a: seq<Account>, b: seq<Account>, id: string)
    ensures Deleted(a + b, id) == Deleted(a, id) + Deleted(b, id)
  {
    if a == [] {
      assert a + b == b;
    } else {
      assert (a + b)[1..] == a[1..] + b;
      DeleteConcat(a[1..], b, id);
    }
  }

  /** Exactly the accounts carrying the id go: every other account keeps its number of occurrences. */
  lemma {:induction false} DeleteKeepsOthers(list: seq<Account>, id: string, a: Account)
    requires a.id != id
    ensures multiset(Deleted(list, id))[a] == multiset(list)[a]
  {
    if list != [] {
      assert list == [list[0]] + list[1..];
      DeleteKeepsOthers(list[1..], id, a);
    }
  }

  // ---------------------------------------------------------------------------------------------
  // incrementPostViews

  /** `account` with one more view on its post `postIndex`. */
  function WithViewAdded(account: Account, postIndex: int): (r: Account)
    requires 0 <= postIndex < |account.posts|
    ensures |r.posts| == |account.posts|
    ensures r.posts[postIndex].views == account.posts[postIndex].views + 1
    ensures r.posts[postIndex].(views := 0) == account.posts[postIndex].(views := 0)
    ensures forall p :: 0 <= p < |account.posts| && p != postIndex ==> r.posts[p] == account.posts[p]
    ensures r.(posts := []) == account.(posts := [])
  {
    var post := account.posts[postIndex];
    account.(posts := account.posts[postIndex := post.(views := post.views + 1)])
  }

  /** The first account with `accountId` exists and `postIndex` indexes one of its posts. */
  predicate IsViewTarget(list: seq<Account>, accountId: string, postIndex: int) {
    var k := FirstIndexOf(list, accountId);
    k != -1 && 0 <= postIndex < |list[k].posts|
  }

  /** The list after `incrementPostViews(accountId, postIndex)`; an unknown target changes nothing. */
  function Incremented(list: seq<Account>, accountId: string, postIndex: int): (r: seq<Account>)
    ensures |r| == |list|
    ensures !IsViewTarget(list, accountId, postIndex) ==> r == list
  {
    var k := FirstIndexOf(list, accountId);
    if k != -1 && 0 <= postIndex < |list[k].posts| then list[k := WithViewAdded(list[k], postIndex)] else list
  }

  /**
   * On a valid target exactly one post gains exactly one view: the first account with the id keeps
   * every other field and post, and every other account is untouched.
   */
  lemma IncrementOnePost(list: seq<Account>, accountId: string, postIndex: int)
    requires IsViewTarget(list, accountId, postIndex)
    ensures var k := FirstIndexOf(list, accountId);
            var r := Incremented(list, accountId, postIndex);
            && |r[k].posts| == |list[k].posts|
            && r[k].posts[postIndex].views == list[k].posts[postIndex].views + 1
            && r[k].posts[postIndex].(views := 0) == list[k].posts[postIndex].(views := 0)
            && r[k].(posts := []) == list[k].(posts := [])
            && (forall p :: 0 <= p < |list[k].posts| && p != postIndex ==> r[k].posts[p] == list[k].posts[p])
            && (forall j :: 0 <= j < |list| && j != k ==> r[j] == list[j])
  {
  }

  /** The views of a list of posts, summed. */
  function PostViews(posts: seq<Post>): int {
    if posts == [] then 0 else posts[0].views + PostViews(posts[1..])
  }

  /** The views of every post of every account, summed. */
  function TotalViews(list: seq<Account>): int {
    if list == [] then 0 else PostViews(list[0].posts) + TotalViews(list[1..])
  }

  lemma {:induction false} PostViewsUpdate(posts: seq<Post>, i: int, p: Post)
    requires 0 <= i < |posts|
    ensures PostViews(posts[i := p]) == PostViews(posts) - posts[i].views + p.views
  {
    if i > 0 {
      assert posts[i := p][1..] == posts[1..][i - 1 := p];
      PostViewsUpdate(posts[1..], i - 1, p);
    }
  }

  lemma {:induction false} TotalViewsUpdate(list: seq<Account>, k: int, a: Account)
    requires 0 <= k < |list|
    ensures TotalViews(list[k := a]) == TotalViews(list) - PostViews(list[k].posts) + PostViews(a.posts)
  {
    if k > 0 {
      assert list[k := a][1..] == list[1..][k - 1 := a];
      TotalViewsUpdate(list[1..], k - 1, a);
    }
  }

  /** The views over the whole store grow by one on a valid target and stay put otherwise. */
  lemma IncrementAddsOneView(list: seq<Account>, accountId: string, postIndex: int)
    ensures TotalViews(Incremented(list, accountId, postIndex))
         == TotalViews(list) + (if IsViewTarget(list, accountId, postIndex) then 1 else 0)
  {
    if IsViewTarget(list, accountId, postIndex) {
      var k := FirstIndexOf(list, accountId);
      var post := list[k].posts[postIndex];
      PostViewsUpdate(list[k].posts, postIndex, post.(views := post.views + 1));
      TotalViewsUpdate(list, k, WithViewAdded(list[k], postIndex));
    }
  }

  /** Incrementing never makes a view count negative. */
  lemma IncrementKeepsViewsNonNegative(list: seq<Account>, accountId: string, postIndex: int)
    requires ViewsNonNegative(list)
    ensures ViewsNonNegative(Incremented(list, accountId, postIndex))
  {
  }

  /** Two mounts that each count a view raise the post to 2 views; an index past the end changes nothing. */
  lemma IncrementScenario(name: string, followers: int, engagement: real, post: Post)
    requires post.views == 0
    ensures var list := [Account("1", name, followers, engagement, [post])];
            && Incremented(Incremented(list, "1", 0), "1", 0)[0].posts[0].views == 2
            && Incremented(list, "1", 5) == list
  {
  }

  // ---------------------------------------------------------------------------------------------
  // The store

  /** What a `loadAccounts` fetch does: it resolves, or it rejects with an error that may carry a message. */
  datatype FetchOutcome = Resolves | Rejects(message: Option<string>)

  /** The error recorded when a rejected load carries no message. */
  const DefaultLoadError := "Failed to load accounts"

  /** A read-only copy of the store's state, as consumers see it. */
  datatype Snapshot = Snapshot(list: seq<Account>, loading: bool, error: Option<string>)

  class Store {
    var list: seq<Account>
    var loading: bool
    var error: Option<string>

    function State(): Snapshot
      reads this
    {
      Snapshot(list, loading, error)
    }

    /** `initialState`: no accounts yet, a load pending, no error. */
    constructor ()
      ensures list == [] && loading && error == None
    {
      list := [];
      loading := true;
      error := None;
    }

    /** `addAccount`: appends, with no duplicate-id check. */
    method AddAccount(account: Account)
      modifies this
      ensures list == old(list) + [account]
      ensures loading == old(loading) && error == old(error)
    {
      list := list + [account];
    }

    /** `updateAccount`: replaces the first account with the same id, or does nothing. */
    method UpdateAccount(account: Account)
      modifies this
      ensures list == Updated(old(list), account)
      ensures loading == old(loading) && error == old(error)
    {
      var index := FirstIndexOf(list, account.id);
      if index != -1 {
        list := list[index := account];
      }
    }

    /** `deleteAccount`: keeps the accounts whose id differs. */
    method DeleteAccount(id: string)
      modifies this
      ensures list == Deleted(old(list), id)
      ensures loading == old(loading) && error == old(error)
    {
      list := Deleted(list, id);
    }

    /** `incrementPostViews`: one more view on a post of the first account with the id, if both exist. */
    method IncrementPostViews(accountId: string, postIndex: int)
      modifies this
      ensures list == Incremented(old(list), accountId, postIndex)
      ensures loading == old(loading) && error == old(error)
    {
      var index := FirstIndexOf(list, accountId);
      if index != -1 && 0 <= postIndex < |list[index].posts| {
        var account := list[index];
        var post := account.posts[postIndex];
        list := list[index := account.(posts := account.posts[postIndex := post.(views := post.views + 1)])];
      }
    }

    /** `loadAccounts.pending`: loading, error cleared, the old list still shown. */
    method LoadPending()
      modifies this
      ensures loading && error == None && list == old(list)
    {
      loading := true;
      error := None;
    }

    /** `loadAccounts.fulfilled`: the fetched list replaces the old one wholesale. */
    method LoadFulfilled(payload: seq<Account>)
      modifies this
      ensures !loading && error == None && list == payload
    {
      loading := false;
      error := None;
      list := payload;
    }

    /** `loadAccounts.rejected`: the message, or the default one when there is none; the list is kept. */
    method LoadRejected(message: Option<string>)
      modifies this
      ensures !loading && error == Some(message.GetOr(DefaultLoadError)) && list == old(list)
    {
      loading := false;
      error := Some(message.GetOr(DefaultLoadError));
    }

    /** `dispatch(loadAccounts())` run to completion: pending, then fulfilled or rejected. */
    method LoadAccounts(outcome: FetchOutcome)
      modifies this
      ensures !loading
      ensures outcome.Resolves? ==> list == SocialApi.FetchAccounts() && error == None
      ensures outcome.Rejects? ==> list == old(list) && error == Some(outcome.message.GetOr(DefaultLoadError))
    {
      LoadPending();
      match outcome {
        case Resolves => LoadFulfilled(SocialApi.FetchAccounts());
        case Rejects(message) => LoadRejected(message);
      }
    }
  }

  // ---------------------------------------------------------------------------------------------
  // Runs of the store

  /** A load that fails with "Network error" and a retry that succeeds: the retry clears the error. */
  method RetryAfterNetworkError() returns (failed: Snapshot, retried: Snapshot)
    ensures failed == Snapshot([], false, Some("Network error"))
    ensures retried == Snapshot(SocialApi.Seed, false, None)
  {
    var store := new Store();
    store.LoadAccounts(Rejects(Some("Network error")));
    failed := store.State();
    store.LoadAccounts(Resolves);
    retried := store.State();
  }

  /** A rejection without a message records the default error text. */
  method RejectWithoutMessage() returns (state: Snapshot)
    ensures state == Snapshot([], false, Some("Failed to load accounts"))
  {
    var store := new Store();
    store.LoadAccounts(Rejects(None));
    state := store.State();
  }

  /**
   * Views counted in the store do not leak into the data source: a reload brings back the seed,
   * and the counted view did change the list in between.
   */
  method ReloadResets(accountId: string, postIndex: int) returns (viewed: seq<Account>, reloaded: seq<Account>)
    ensures viewed == Incremented(SocialApi.Seed, accountId, postIndex)
    ensures reloaded == SocialApi.Seed
    ensures IsViewTarget(SocialApi.Seed, accountId, postIndex) ==> viewed != reloaded
  {
    var store := new Store();
    store.LoadAccounts(Resolves);
    store.IncrementPostViews(accountId, postIndex);
    viewed := store.list;
    store.LoadAccounts(Resolves);
    reloaded := store.list;
    IncrementAddsOneView(SocialApi.Seed, accountId, postIndex);
  }
}
