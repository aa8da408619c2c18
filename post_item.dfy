/**
 * src/components/PostItem/PostItem.tsx: the view-counting latch of one mounted post. Each visibility
 * notification is the `isIntersecting` flag of the observer's first entry.
 */
module PostItem {
  import opened Types
  import SocialSlice

  /** The payload of one `incrementPostViews` dispatch. */
  datatype ViewRequest = ViewRequest(accountId: string, postIndex: int)

  /** One mount of a post: its target and the `hasCountedRef` flag. */
  class ViewLatch {
    const accountId: string
    const postIndex: int
    var hasCounted: bool

    /** Mounting: the flag starts cleared. */
    constructor (accountId: string, postIndex: int)
      ensures this.accountId == accountId && this.postIndex == postIndex
      ensures !hasCounted
    {
      this.accountId := accountId;
      this.postIndex := postIndex;
      hasCounted := false;
    }

    /**
     * The observer callback: the first intersecting entry sets the flag and dispatches this post's
     * target; an entry that is not intersecting, or any entry once the flag is set, does nothing.
     */
    method OnIntersection(isIntersecting: bool) returns (sent: Option<ViewRequest>)
      modifies this
      ensures hasCounted == (old(hasCounted) || isIntersecting)
      ensures sent == if isIntersecting && !old(hasCounted) then Some(ViewRequest(accountId, postIndex)) else None
    {
      if !isIntersecting || hasCounted {
        return None;
      }
      hasCounted := true;
      sent := Some(ViewRequest(accountId, postIndex));
    }
  }

  /**
   * A mount followed by a run of visibility notifications: at most one request is sent, it is sent
   * exactly when some notification was intersecting, and it names the mounted post.
   */
  method CountViewsPerMount(accountId: string, postIndex: int, events: seq<bool>) returns (sent: seq<ViewRequest>)
    ensures |sent| <= 1
    ensures |sent| == 1 <==> true in events
    ensures forall r :: r in sent ==> r == ViewRequest(accountId, postIndex)
  {
    var latch := new ViewLatch(accountId, postIndex);
    sent := [];
    for i := 0 to |events|
      invariant latch.accountId == accountId && latch.postIndex == postIndex
      invariant latch.hasCounted == (true in events[..i])
      invariant sent == if latch.hasCounted then [ViewRequest(accountId, postIndex)] else []
    {
      assert events[..i + 1] == events[..i] + [events[i]];
      var request := latch.OnIntersection(events[i]);
      if request.Some? {
        sent := sent + [request.value];
      }
    }
    assert events[..|events|] == events;
  }

  /**
   * The same run dispatched into the store: the post's view count rises by one if the post was
   * ever visible during the mount, and the store is unchanged otherwise.
   */
  method MountAndObserve(store: SocialSlice.Store, accountId: string, postIndex: int, events: seq<bool>)
    modifies store
    ensures store.list == if true in events then SocialSlice.Incremented(old(store.list), accountId, postIndex)
                          else old(store.list)
    ensures store.loading == old(store.loading) && store.error == old(store.error)
  {
    var latch := new ViewLatch(accountId, postIndex);
    for i := 0 to |events|
      invariant latch.accountId == accountId && latch.postIndex == postIndex
      invariant latch.hasCounted == (true in events[..i])
      invariant store.list == if latch.hasCounted then SocialSlice.Incremented(old(store.list), accountId, postIndex)
                              else old(store.list)
      invariant store.loading == old(store.loading) && store.error == old(store.error)
    {
      assert events[..i + 1] == events[..i] + [events[i]];
      var request := latch.OnIntersection(events[i]);
      if request.Some? {
        store.IncrementPostViews(request.value.accountId, request.value.postIndex);
      }
    }
    assert events[..|events|] == events;
  }
}
