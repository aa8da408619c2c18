/** The two record types of the dashboard and the list-level invariants the data model states. */
module Types {

  /** A post of an account; `createdAt` is an ISO date string (YYYY-MM-DD). */
  datatype Post = Post(title: string, description: string, createdAt: string, views: int)

  /** A social-media account and its posts, in display order. */
  datatype Account = Account(id: string, name: string, followers: int, engagement: real, posts: seq<Post>)

  /** JavaScript's `null`/`undefined` for an optional value. */
  datatype Option<T> = None | Some(value: T) {
    /** The value, or `default` when absent (JavaScript's `??`). */
    function GetOr(default: T): T {
      match this
      case Some(v) => v
      case None => default
    }
  }

  /** Some account in `list` carries `id`. */
  predicate HasId(list: seq<Account>, id: string) {
    exists i :: 0 <= i < |list| && list[i].id == id
  }

  /** No two accounts of `list` share an id. */
  predicate DistinctIds(list: seq<Account>) {
    forall i, j :: 0 <= i < j < |list| ==> list[i].id != list[j].id
  }

  /** Every post of every account has a non-negative view count. */
  predicate ViewsNonNegative(list: seq<Account>) {
    forall i, k :: 0 <= i < |list| && 0 <= k < |list[i].posts| ==> list[i].posts[k].views >= 0
  }

  /** Every account has a non-negative follower count. */
  predicate FollowersNonNegative(list: seq<Account>) {
    forall i :: 0 <= i < |list| ==> list[i].followers >= 0
  }
}
