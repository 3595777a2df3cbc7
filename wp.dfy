/**
 * The parts of the WordPress runtime the access rules read: the current
 * user, posts as get_post returns them, and the main admin list query
 * that pre_get_posts hooks may change in place.
 */
module Wp {
  import opened PhpArrays

  /** A WordPress user; id 0 is the logged-out visitor (exists() is false). */
  datatype User = User(id: int, login: string, email: string, roles: seq<string>, canManageOptions: bool)

  predicate Exists(u: User) { u.id != 0 }

  /** A post row as get_post returns it. */
  datatype Post = Post(postType: string, title: string, content: string)

  /** get_post: the posts that exist, by ID. */
  type Posts = map<int, Post>

  /** get_userdata: the users that exist, by ID. */
  type Users = map<int, User>

  /** The login a log entry records: the user's login, or "Unknown". */
  function LoginOf(users: Users, id: int): (r: string)
    ensures id in users ==> r == users[id].login
    ensures id !in users ==> r == "Unknown"
  {
    if id in users then users[id].login else "Unknown"
  }

  /** The title a log entry records: the post's title, or "Unknown". */
  function TitleOf(posts: Posts, id: int): (r: string)
    ensures id in posts ==> r == posts[id].title
    ensures id !in posts ==> r == "Unknown"
  {
    if id in posts then posts[id].title else "Unknown"
  }

  /** The value of the query var post_type: one type name, or an array of them. */
  datatype PostTypeVar = TypeName(name: string) | TypeList(names: seq<string>)

  /** The request context of a hook: is_admin(), and the current user. */
  datatype Request = Request(isAdmin: bool, me: User)

  /** A WP_Query whose post__in var a pre_get_posts hook may set. */
  class Query {
    const isMain: bool
    const postType: PostTypeVar
    var postIn: seq<int>

    constructor (isMain: bool, postType: PostTypeVar, postIn: seq<int>)
      ensures this.isMain == isMain && this.postType == postType && this.postIn == postIn
    {
      this.isMain := isMain;
      this.postType := postType;
      this.postIn := postIn;
    }

    /** $query->set('post__in', ids). */
    method SetPostIn(ids: seq<int>)
      modifies this
      ensures postIn == ids
    {
      postIn := ids;
    }
  }

  /** The two ID-list keys a query-arguments array may carry: post__in and include. */
  datatype QueryArgs = QueryArgs(postIn: Option<seq<int>>, includeIds: Option<seq<int>>)

  /** What an edit-screen check does: let the request go on, or wp_die with 403 (access denied, or access expired). */
  datatype Verdict = Proceed | Forbidden | Expired
}
