/**
 * src/components/AccountModal/AccountModal.tsx: the add/edit form's initial values, the editing of
 * its post list, and the payload and action built on submit. Today's date, which the form reads from
 * the clock, and the id `getRandomUUID` would draw are parameters.
 */
module AccountModal {
  import opened Types
  import opened Text
  import SocialSlice

  /** What the form holds: the account's editable fields. */
  datatype FormValues = FormValues(name: string, followers: int, engagement: real, posts: seq<Post>)

  /** The action a submit dispatches. */
  datatype SaveAction = AddAccount(account: Account) | UpdateAccount(account: Account)

  /** `emptyPost`, dated `today`: a blank post with no views. */
  function EmptyPost(today: string): (p: Post)
    ensures IsBlankPost(p) && p.createdAt == today && p.views == 0
  {
    Post("", "", today, 0)
  }

  /** The form's starting values: the edited account's fields, or empty ones when adding. */
  function InitialValues(accountToEdit: Option<Account>): (v: FormValues)
    ensures accountToEdit.Some? ==> v.name == accountToEdit.value.name && v.posts == accountToEdit.value.posts
    ensures accountToEdit.Some? ==>
              v.followers == accountToEdit.value.followers && v.engagement == accountToEdit.value.engagement
    ensures accountToEdit.None? ==> v.name == "" && v.followers == 0 && v.engagement == 0.0 && v.posts == []
  {
    match accountToEdit
    case Some(a) => FormValues(a.name, a.followers, a.engagement, if |a.posts| > 0 then a.posts else [])
    case None => FormValues("", 0, 0.0, [])
  }

  /** A post whose title and description are both empty once trimmed; submit drops it. */
  predicate IsBlankPost(p: Post): (blank: bool)
    ensures blank <==> AllSpace(p.title) && AllSpace(p.description)
  {
    Trim(p.title) == "" && Trim(p.description) == ""
  }

  /** What every post that submit keeps looks like. */
  predicate IsSavedPost(p: Post) {
    !IsBlankPost(p) && IsTrimmed(p.title) && IsTrimmed(p.description) && p.views >= 0 && p.createdAt != ""
  }

  /**
   * One kept post as submit saves it: the trimmed title and description, its own date or else
   * today's, and its view count clamped at 0.
   */
  function NormalizePost(p: Post, today: string): (q: Post)
    ensures q.title == Trim(p.title) && q.description == Trim(p.description)
    ensures IsTrimmed(q.title) && IsTrimmed(q.description)
    ensures IsBlankPost(q) <==> IsBlankPost(p)
    ensures q.createdAt == (if p.createdAt != "" then p.createdAt else today)
    ensures today != "" ==> q.createdAt != ""
    ensures q.views == (if p.views >= 0 then p.views else 0)
    ensures q.views >= 0 && q.views >= p.views
  {
    TrimIdempotent(p.title);
    TrimIdempotent(p.description);
    Post(Trim(p.title), Trim(p.description),
         if p.createdAt != "" then p.createdAt else today,
         if p.views > 0 then p.views else 0)
  }

  /** A saved post is left as it is. */
  lemma NormalizeSavedPost(p: Post, today: string)
    requires IsSavedPost(p)
    ensures NormalizePost(p, today) == p
  {
    TrimOfTrimmed(p.title);
    TrimOfTrimmed(p.description);
  }

  /** The posts submit saves: the non-blank ones, in order, each normalised. */
  function NormalizePosts(posts: seq<Post>, today: string): (r: seq<Post>)
    ensures |r| <= |posts|
    ensures forall q :: q in r ==> !IsBlankPost(q) && IsTrimmed(q.title) && IsTrimmed(q.description) && q.views >= 0
    ensures today != "" ==> forall q :: q in r ==> IsSavedPost(q)
  {
    if posts == [] then []
    else if IsBlankPost(posts[0]) then NormalizePosts(posts[1..], today)
    else [NormalizePost(posts[0], today)] + NormalizePosts(posts[1..], today)
  }

  /** Every post that is not blank is saved, normalised. */
  lemma {:induction false} NonBlankPostIsKept(posts: seq<Post>, today: string, i: int)
    requires 0 <= i < |posts| && !IsBlankPost(posts[i])
    ensures NormalizePost(posts[i], today) in NormalizePosts(posts, today)
  {
    var q := NormalizePost(posts[i], today);
    var rest := NormalizePosts(posts[1..], today);
    if i > 0 {
      assert posts[1..][i - 1] == posts[i];
      NonBlankPostIsKept(posts[1..], today, i - 1);
      assert q in rest;
      if !IsBlankPost(posts[0]) {
        assert NormalizePosts(posts, today) == [NormalizePost(posts[0], today)] + rest;
      }
    } else {
      assert NormalizePosts(posts, today) == [q] + rest;
    }
  }

  /** Every saved post is the normalised form of a post of the form that was not blank. */
  lemma {:induction false} SavedPostComesFromForm(posts: seq<Post>, today: string, q: Post)
    requires q in NormalizePosts(posts, today)
    ensures exists i :: 0 <= i < |posts| && !IsBlankPost(posts[i]) && q == NormalizePost(posts[i], today)
  {
    if posts != [] && !(!IsBlankPost(posts[0]) && q == NormalizePost(posts[0], today)) {
      SavedPostComesFromForm(posts[1..], today, q);
      var i :| 0 <= i < |posts[1..]| && !IsBlankPost(posts[1..][i]) && q == NormalizePost(posts[1..][i], today);
      assert posts[i + 1] == posts[1..][i];
    }
  }

  /** Normalising a list in two parts is normalising each part, so the saved posts keep their order. */
  lemma {:induction false} NormalizePostsConcat(a: seq<Post>, b: seq<Post>, today: string)
    ensures NormalizePosts(a + b, today) == NormalizePosts(a, today) + NormalizePosts(b, today)
  {
    if a == [] {
      assert a + b == b;
    } else {
      assert (a + b)[1..] == a[1..] + b;
      NormalizePostsConcat(a[1..], b, today);
    }
  }

  /** A list of saved posts is saved unchanged. */
  lemma {:induction false} NormalizeSavedPosts(posts: seq<Post>, today: string)
    requires forall i :: 0 <= i < |posts| ==> IsSavedPost(posts[i])
    ensures NormalizePosts(posts, today) == posts
  {
    if posts != [] {
      var rest := posts[1..];
      assert forall i :: 0 <= i < |rest| ==> rest[i] == posts[i + 1];
      NormalizeSavedPosts(rest, today);
      NormalizeSavedPost(posts[0], today);
      assert !IsBlankPost(posts[0]);
      assert NormalizePosts(posts, today) == [NormalizePost(posts[0], today)] + NormalizePosts(rest, today);
      assert posts == [posts[0]] + rest;
    }
  }

  /** Submitting the saved posts again changes nothing. */
  lemma NormalizePostsIdempotent(posts: seq<Post>, today: string)
    requires today != ""
    ensures NormalizePosts(NormalizePosts(posts, today), today) == NormalizePosts(posts, today)
  {
    var r := NormalizePosts(posts, today);
    assert forall i :: 0 <= i < |r| ==> r[i] in r;
    NormalizeSavedPosts(r, today);
  }

  /**
   * `onSubmit`: the payload keeps the edited account's id, or takes `freshId` when adding, carries
   * the form's name, followers and engagement as they are and the normalised posts, and is
   * dispatched as an update in edit mode and as an add otherwise.
   */
  function Submit(values: FormValues, accountToEdit: Option<Account>, freshId: string, today: string): (action: SaveAction)
    ensures action.UpdateAccount? <==> accountToEdit.Some?
    ensures accountToEdit.Some? ==> action.account.id == accountToEdit.value.id
    ensures accountToEdit.None? ==> action.account.id == freshId
    ensures action.account.name == values.name && action.account.followers == values.followers
    ensures action.account.engagement == values.engagement
    ensures action.account.posts == NormalizePosts(values.posts, today)
  {
    var id := if accountToEdit.Some? then accountToEdit.value.id else freshId;
    var payload := Account(id, values.name, values.followers, values.engagement, NormalizePosts(values.posts, today));
    if accountToEdit.Some? then UpdateAccount(payload) else AddAccount(payload)
  }

  /** Opening an account whose posts are all saved ones and submitting at once saves it unchanged. */
  lemma EditUnchangedKeepsAccount(a: Account, freshId: string, today: string)
    requires forall i :: 0 <= i < |a.posts| ==> IsSavedPost(a.posts[i])
    ensures Submit(InitialValues(Some(a)), Some(a), freshId, today) == UpdateAccount(a)
  {
    NormalizeSavedPosts(a.posts, today);
  }

  /**
   * `onSubmit` applied to the untouched add-mode values builds an add of an account with the fresh
   * id, no name, zero counts and no posts. (The form's validation refuses these values before
   * `onSubmit` runs; this states what `onSubmit` itself does with them.)
   */
  lemma AddUnchangedIsEmptyAccount(freshId: string, today: string)
    ensures Submit(InitialValues(None), None, freshId, today) == AddAccount(Account(freshId, "", 0, 0.0, []))
  {
  }

  /** `handleAddPost`: the list with one blank post dated `today` appended. */
  function AddPost(posts: seq<Post>, today: string): (r: seq<Post>)
    ensures |r| == |posts| + 1 && r[..|posts|] == posts
    ensures r[|posts|] == EmptyPost(today) && IsBlankPost(r[|posts|])
  {
    posts + [EmptyPost(today)]
  }

  /**
   * `onSubmit` drops a post that was added and left blank. (The form's validation refuses an empty
   * title or description before `onSubmit` runs; this states what `onSubmit` itself does.)
   */
  lemma AddedBlankPostIsDropped(posts: seq<Post>, today: string)
    ensures NormalizePosts(AddPost(posts, today), today) == NormalizePosts(posts, today)
  {
    NormalizePostsConcat(posts, [EmptyPost(today)], today);
    assert NormalizePosts([EmptyPost(today)], today) == [];
  }

  /** `handleRemovePost`: the list filtered to the entries whose index is not `index`. */
  function RemovePost(posts: seq<Post>, index: int): (r: seq<Post>)
    ensures 0 <= index < |posts| ==> r == posts[..index] + posts[index + 1..]
    ensures !(0 <= index < |posts|) ==> r == posts
  {
    if posts == [] then []
    else if index == 0 then posts[1..]
    else [posts[0]] + RemovePost(posts[1..], index - 1)
  }

  /** Removing the post just added gives the list back. */
  lemma RemoveAddedPost(posts: seq<Post>, today: string)
    ensures RemovePost(AddPost(posts, today), |posts|) == posts
  {
  }

  /** The dispatch at the end of `onSubmit`, into the store. */
  method Dispatch(store: SocialSlice.Store, action: SaveAction)
    modifies store
    ensures action.AddAccount? ==> store.list == old(store.list) + [action.account]
    ensures action.UpdateAccount? ==> store.list == SocialSlice.Updated(old(store.list), action.account)
    ensures store.loading == old(store.loading) && store.error == old(store.error)
  {
    match action
    case AddAccount(a) => store.AddAccount(a);
    case UpdateAccount(a) => store.UpdateAccount(a);
  }

  /**
   * Editing an account already in the store: after the update, the first account with its id has
   * the name typed into the form.
   */
  lemma EditRenamesStoredAccount(list: seq<Account>, a: Account, values: FormValues, today: string)
    requires HasId(list, a.id)
    ensures var k := SocialSlice.FirstIndexOf(list, a.id);
            var updated := SocialSlice.Updated(list, Submit(values, Some(a), "", today).account);
            0 <= k && SocialSlice.FirstIndexOf(updated, a.id) == k && updated[k].name == values.name
  {
    SocialSlice.UpdateThenFind(list, Submit(values, Some(a), "", today).account);
  }

  /**
   * The edit flow run against a store: add the account "edit-1", open it, change its name to "X"
   * and submit; the store's first "edit-1" account is then named "X".
   */
  method EditFlow(store: SocialSlice.Store, today: string) returns (name: string)
    modifies store
    ensures HasId(store.list, "edit-1")
    ensures store.list[SocialSlice.FirstIndexOf(store.list, "edit-1")].name == "X"
    ensures name == "X"
  {
    var account := Account("edit-1", "Twitter", 1000, 5.0, []);
    store.AddAccount(account);
    var values := InitialValues(Some(account));
    values := values.(name := "X");
    Dispatch(store, Submit(values, Some(account), "", today));
    assert HasId(old(store.list) + [account], "edit-1") by {
      assert (old(store.list) + [account])[|old(store.list)|].id == "edit-1";
    }
    EditRenamesStoredAccount(old(store.list) + [account], account, values, today);
    var k := SocialSlice.FirstIndexOf(store.list, "edit-1");
    name := store.list[k].name;
  }

  /** The add flow run against a store: the account typed in is appended under the fresh id. */
  method AddFlow(store: SocialSlice.Store, freshId: string, today: string) returns (added: Account)
    modifies store
    ensures added == Account(freshId, "New Account", 5000, 8.0, [])
    ensures store.list == old(store.list) + [added]
  {
    var values := InitialValues(None);
    values := values.(name := "New Account", followers := 5000, engagement := 8.0);
    var action := Submit(values, None, freshId, today);
    Dispatch(store, action);
    added := action.account;
  }
}
