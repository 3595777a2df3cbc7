/**
 * The WooCommerce integration: products, orders and coupons are restricted
 * like pages and posts once their settings flag is on. The admin list, the
 * edit screen, the REST collections and the order query (HPOS) all read
 * the user's grant for the type. A filter's shouldFilter argument is the
 * answer of should_filter_user for the current user (Settings.ShouldFilterUser).
 */
module WooCommerce {
  import opened PhpArrays
  import opened Wp
  import opened Settings
  import UserMeta
  import PostAccess

  /** $wc_types: the WooCommerce post types and the settings flag of each. */
  function WcFlag(postType: string): Option<Key> {
    match postType
    case "product" => Some(WooProducts)
    case "shop_order" => Some(WooOrders)
    case "shop_coupon" => Some(WooCoupons)
    case _ => None
  }

  /** is_wc_type_enabled: a WooCommerce type whose flag is set. */
  predicate IsWcTypeEnabled(stored: Options, postType: string) {
    WcFlag(postType).Some? && Truthy(Get(stored, WcFlag(postType).value, Bool(false)))
  }

  /**
   * The integration's table agrees with the settings' table, so a type it
   * restricts is one is_post_type_enabled reports, and with nothing stored
   * no WooCommerce type is restricted.
   */
  lemma WcTypeEnabledAgrees(stored: Options, postType: string)
    ensures WcFlag(postType).Some? ==> IntegrationFlag(postType) == WcFlag(postType)
    ensures IsWcTypeEnabled(stored, postType) ==> IsPostTypeEnabled(stored, postType)
    ensures !IsWcTypeEnabled(map[], postType)
  {
  }

  /** The grant of a type (get_allowed_wc_ids). */
  function AllowedWcIds(meta: UserMeta.Meta, userId: int, postType: string): seq<int> {
    UserMeta.ReadIds(meta, userId, UserMeta.ContentKey(postType))
  }

  /** Whether filter_wc_posts_query constrains the query. */
  predicate WcListFiltered(isAdmin: bool, isMain: bool, shouldFilter: bool, postType: PostTypeVar, stored: Options) {
    isAdmin && isMain && shouldFilter && postType.TypeName? && IsWcTypeEnabled(stored, postType.name)
  }

  /** filter_wc_posts_query */
  method FilterWcPostsQuery(query: Query, isAdmin: bool, me: User, shouldFilter: bool, active: bool,
                            stored: Options, store: UserMeta.GrantStore)
    modifies query
    ensures query.postIn ==
      if WcListFiltered(isAdmin, query.isMain, shouldFilter, query.postType, stored)
      then ListingConstraint(active, AllowedWcIds(store.meta, me.id, query.postType.name))
      else old(query.postIn)
  {
    if !isAdmin || !query.isMain {
      return;
    }
    if !shouldFilter {
      return;
    }
    if query.postType.TypeList? {
      return;
    }
    var postType := query.postType.name;
    if WcFlag(postType).None? {
      return;
    }
    if !IsWcTypeEnabled(stored, postType) {
      return;
    }
    if !active {
      query.SetPostIn([0]);
      return;
    }
    var allowed := store.AllowedContent(me.id, postType);
    if allowed == [] {
      query.SetPostIn([0]);
    } else {
      query.SetPostIn(allowed);
    }
  }

  /** The edit-screen check acts on this request: a filtered user opening an existing item of an enabled type. */
  predicate WcGuarded(shouldFilter: bool, postId: int, posts: Posts, stored: Options) {
    shouldFilter && postId != 0 && postId in posts && IsWcTypeEnabled(stored, posts[postId].postType)
  }

  /** The title a WooCommerce log entry records: the type in brackets, then the title. */
  function WcLogTitle(postType: string, title: string): (r: string)
    ensures |r| == |postType| + |title| + 3
    ensures r[..|postType| + 3] == "[" + postType + "] "
    ensures r[|postType| + 3..] == title
  {
    "[" + postType + "] " + title
  }

  /** check_wc_post_access together with its log_access_attempt. */
  method CheckWcPostAccess(me: User, shouldFilter: bool, active: bool, param: Option<string>, posts: Posts,
                           users: Users, stored: Options, store: UserMeta.GrantStore, log: PostAccess.AccessLog)
    returns (v: Verdict)
    modifies log
    ensures var postId := PostAccess.RequestPostId(param);
      var guarded := WcGuarded(shouldFilter, postId, posts, stored);
      var denied := guarded && active && postId !in AllowedWcIds(store.meta, me.id, posts[postId].postType);
      && (v == Expired <==> guarded && !active)
      && (v == Forbidden <==> denied)
      && log.raw == if denied
                    then Some(PostAccess.PushCapped(PostAccess.CurrentLog(old(log.raw)),
                           PostAccess.LogEntry(LoginOf(users, me.id), postId,
                                               WcLogTitle(posts[postId].postType, posts[postId].title))))
                    else old(log.raw)
  {
    if !shouldFilter {
      return Proceed;
    }
    var postId := PostAccess.RequestPostId(param);
    if postId == 0 {
      return Proceed;
    }
    if postId !in posts {
      return Proceed;
    }
    var post := posts[postId];
    if WcFlag(post.postType).None? {
      return Proceed;
    }
    if !IsWcTypeEnabled(stored, post.postType) {
      return Proceed;
    }
    if !active {
      return Expired;
    }
    var allowed := store.AllowedContent(me.id, post.postType);
    if postId !in allowed {
      log.Record(PostAccess.LogEntry(LoginOf(users, me.id), postId, WcLogTitle(post.postType, TitleOf(posts, postId))));
      return Forbidden;
    }
    return Proceed;
  }

  /** The post type filter_wc_rest_query serves, read off the name of the running filter. */
  function TypeFromFilterName(filterName: string): (r: string)
    ensures Contains(filterName, "shop_order") ==> r == "shop_order"
    ensures !Contains(filterName, "shop_order") && Contains(filterName, "shop_coupon") ==> r == "shop_coupon"
    ensures !Contains(filterName, "shop_order") && !Contains(filterName, "shop_coupon") ==> r == "product"
    ensures WcFlag(r).Some?
  {
    if Contains(filterName, "shop_order") then "shop_order"
    else if Contains(filterName, "shop_coupon") then "shop_coupon"
    else "product"
  }

  /** The include constraint of the REST and order filters for a type, or None when they leave the args alone. */
  function WcIncludeConstraint(shouldFilter: bool, active: bool, stored: Options, meta: UserMeta.Meta,
                               userId: int, postType: string): (r: Option<seq<int>>)
    ensures r.None? <==> !shouldFilter || !IsWcTypeEnabled(stored, postType)
    ensures r.Some? ==> (r.value != [] &&
      forall x :: x in r.value ==> x == 0 || (active && x in AllowedWcIds(meta, userId, postType)))
    ensures r.Some? && active ==> forall x :: x in AllowedWcIds(meta, userId, postType) ==> x in r.value
    ensures r.Some? && !active ==> r.value == NoMatch
  {
    if !shouldFilter || !IsWcTypeEnabled(stored, postType) then None
    else Some(ListingConstraint(active, AllowedWcIds(meta, userId, postType)))
  }

  /** filter_wc_rest_query */
  function FilterWcRestQuery(args: QueryArgs, filterName: string, shouldFilter: bool, active: bool,
                             stored: Options, meta: UserMeta.Meta, userId: int): (r: QueryArgs)
    ensures r.postIn == args.postIn
    ensures var c := WcIncludeConstraint(shouldFilter, active, stored, meta, userId, TypeFromFilterName(filterName));
      r.includeIds == if c.Some? then c else args.includeIds
  {
    if !shouldFilter then args
    else
      var postType := TypeFromFilterName(filterName);
      if !IsWcTypeEnabled(stored, postType) then args
      else if !active then args.(includeIds := Some([0]))
      else
        var allowed := AllowedWcIds(meta, userId, postType);
        if allowed == [] then args.(includeIds := Some([0]))
        else args.(includeIds := Some(allowed))
  }

  /** filter_wc_order_query (HPOS order queries) */
  function FilterWcOrderQuery(args: QueryArgs, shouldFilter: bool, active: bool,
                              stored: Options, meta: UserMeta.Meta, userId: int): (r: QueryArgs)
    ensures r.postIn == args.postIn
    ensures var c := WcIncludeConstraint(shouldFilter, active, stored, meta, userId, "shop_order");
      r.includeIds == if c.Some? then c else args.includeIds
  {
    if !shouldFilter then args
    else if !IsWcTypeEnabled(stored, "shop_order") then args
    else if !active then args.(includeIds := Some([0]))
    else
      var allowed := AllowedWcIds(meta, userId, "shop_order");
      if allowed == [] then args.(includeIds := Some([0]))
      else args.(includeIds := Some(allowed))
  }

  /**
   * On a hook whose name names orders (woocommerce_rest_shop_order_object_query)
   * the REST collection is constrained exactly like the HPOS order query.
   */
  lemma OrderFiltersAgree(args: QueryArgs, filterName: string, shouldFilter: bool, active: bool,
                          stored: Options, meta: UserMeta.Meta, userId: int)
    requires Contains(filterName, "shop_order")
    ensures FilterWcRestQuery(args, filterName, shouldFilter, active, stored, meta, userId)
         == FilterWcOrderQuery(args, shouldFilter, active, stored, meta, userId)
  {
  }

  /** A real ID the admin list still shows is one whose edit screen opens. */
  lemma ListAndEditScreenAgree(me: User, shouldFilter: bool, active: bool, postId: int, posts: Posts,
                               stored: Options, meta: UserMeta.Meta)
    requires postId != 0 && postId in posts && shouldFilter && IsWcTypeEnabled(stored, posts[postId].postType)
    requires postId in ListingConstraint(active, AllowedWcIds(meta, me.id, posts[postId].postType))
    ensures active && postId in AllowedWcIds(meta, me.id, posts[postId].postType)
  {
  }
}
