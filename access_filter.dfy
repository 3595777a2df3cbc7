/**
 * The admin list filter: on the main admin query of a non-administrator,
 * page and post listings are limited to the user's granted IDs, with [0]
 * (matches nothing) when nothing is granted; and the parent-page dropdown
 * offers only granted pages.
 */
module AccessFilter {
  import opened PhpArrays
  import opened Wp
  import UserMeta

  /** PHP empty() on a post_type string: "" and "0". */
  predicate EmptyTypeName(s: string) { s == "" || s == "0" }

  /** The post type filter_posts_query acts on: an empty one is 'post'. */
  function EffectiveType(name: string): (t: string)
    ensures EmptyTypeName(name) ==> t == "post"
    ensures !EmptyTypeName(name) ==> t == name
  {
    if EmptyTypeName(name) then "post" else name
  }

  /**
   * The post__in value filter_posts_query sets, or None when it leaves the
   * query alone.
   */
  function PostsQueryConstraint(req: Request, isMain: bool, postType: PostTypeVar,
                                pages: seq<int>, posts: seq<int>): Option<seq<int>>
  {
    if !req.isAdmin || !isMain then None
    else if req.me.canManageOptions then None
    else if postType.TypeList? then None
    else
      var t := EffectiveType(postType.name);
      if t == "page" then Some(if pages == [] then [0] else pages)
      else if t == "post" then Some(if posts == [] then [0] else posts)
      else None
  }

  /** When the filter applies, and what it sets. */
  lemma PostsQueryConstraintSpec(req: Request, isMain: bool, postType: PostTypeVar, pages: seq<int>, posts: seq<int>)
    ensures var r := PostsQueryConstraint(req, isMain, postType, pages, posts);
      && (r.Some? <==> req.isAdmin && isMain && !req.me.canManageOptions && postType.TypeName? &&
                        EffectiveType(postType.name) in ["page", "post"])
      && (r.Some? ==> r.value == Sentinel(if EffectiveType(postType.name) == "page" then pages else posts))
  {
  }

  /** A set constraint is never empty and lets through only granted IDs (or the 0 sentinel). */
  lemma PostsQueryOnlyGranted(req: Request, isMain: bool, postType: PostTypeVar, pages: seq<int>, posts: seq<int>)
    requires PostsQueryConstraint(req, isMain, postType, pages, posts).Some?
    ensures var ids := PostsQueryConstraint(req, isMain, postType, pages, posts).value;
      ids != [] && forall x :: x in ids ==> x == 0 || x in pages || x in posts
  {
  }

  /** An untyped admin listing is a post listing. */
  lemma EmptyTypeIsPost(req: Request, isMain: bool, pages: seq<int>, posts: seq<int>)
    ensures PostsQueryConstraint(req, isMain, TypeName(""), pages, posts) ==
            PostsQueryConstraint(req, isMain, TypeName("post"), pages, posts)
  {
  }

  /** filter_posts_query: sets post__in on the query, or leaves it as it was. */
  method FilterPostsQuery(q: Query, req: Request, store: UserMeta.GrantStore)
    modifies q
    ensures var c := PostsQueryConstraint(req, q.isMain, q.postType,
                                         store.AllowedPages(req.me.id), store.AllowedPosts(req.me.id));
      q.postIn == if c.Some? then c.value else old(q.postIn)
  {
    if !req.isAdmin || !q.isMain {
      return;
    }
    if req.me.canManageOptions {
      return;
    }
    var userId := req.me.id;
    var postType := q.postType;
    if postType.TypeList? {
      return;
    }
    var name := postType.name;
    if EmptyTypeName(name) {
      name := "post";
    }
    var allowed: seq<int>;
    if name == "page" {
      allowed := store.AllowedPages(userId);
    } else if name == "post" {
      allowed := store.AllowedPosts(userId);
    } else {
      return;
    }
    if allowed == [] {
      q.SetPostIn([0]);
    } else {
      q.SetPostIn(allowed);
    }
  }

  /** The arguments of the parent-page dropdown; only include is read or written. */
  datatype DropdownArgs = DropdownArgs(includeIds: Option<seq<int>>, others: map<string, string>)

  /** filter_dropdown_pages */
  function FilterDropdownPages(args: DropdownArgs, me: User, pages: seq<int>): (r: DropdownArgs)
    ensures me.canManageOptions ==> r == args
    ensures !me.canManageOptions ==>
      (r.others == args.others && r.includeIds.Some? && r.includeIds.value != [] &&
       (pages != [] ==> r.includeIds.value == pages) && (pages == [] ==> r.includeIds.value == [0]))
  {
    if me.canManageOptions then args
    else args.(includeIds := Some(if pages == [] then [0] else pages))
  }
}
