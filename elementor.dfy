/**
 * The Elementor integration: templates (elementor_library) and theme
 * builder parts (elementor-hf, elementor-thhf) are restricted once their
 * settings flag is on. Besides the admin list and the edit screen it
 * filters the Finder's template results and the editor's template loads.
 * Its denials go to a log of their own (the sfaccess_access_logs option).
 * A filter's shouldFilter argument is the answer of should_filter_user for
 * the current user (Settings.ShouldFilterUser).
 */
module Elementor {
  import opened PhpArrays
  import opened Wp
  import opened Settings
  import UserMeta
  import PostAccess

  /** $elementor_types: the Elementor post types and the settings flag of each. */
  function ElementorFlag(postType: string): Option<Key> {
    match postType
    case "elementor_library" => Some(ElementorTemplates)
    case "elementor-hf" => Some(ElementorThemeBuilder)
    case "elementor-thhf" => Some(ElementorThemeBuilder)
    case _ => None
  }

  /** is_elementor_type_enabled: an Elementor type whose flag is set. */
  predicate IsElementorTypeEnabled(stored: Options, postType: string) {
    ElementorFlag(postType).Some? && Truthy(Get(stored, ElementorFlag(postType).value, Bool(false)))
  }

  /**
   * The integration's table agrees with the settings' table: a type it
   * restricts is one is_post_type_enabled reports, an unknown type is never
   * restricted, and with nothing stored no Elementor type is.
   */
  lemma ElementorTypeEnabledAgrees(stored: Options, postType: string)
    ensures ElementorFlag(postType).Some? ==> IntegrationFlag(postType) == ElementorFlag(postType)
    ensures IsElementorTypeEnabled(stored, postType) ==> IsPostTypeEnabled(stored, postType)
    ensures ElementorFlag(postType).None? ==> !IsElementorTypeEnabled(stored, postType)
    ensures !IsElementorTypeEnabled(map[], postType)
  {
  }

  /** The grant of a type (get_allowed_elementor_ids). */
  function AllowedElementorIds(meta: UserMeta.Meta, userId: int, postType: string): seq<int> {
    UserMeta.ReadIds(meta, userId, UserMeta.ContentKey(postType))
  }

  /** Whether filter_elementor_posts_query constrains the query. */
  predicate ElementorListFiltered(isAdmin: bool, isMain: bool, shouldFilter: bool, postType: PostTypeVar,
                                  stored: Options) {
    isAdmin && isMain && shouldFilter && postType.TypeName? && IsElementorTypeEnabled(stored, postType.name)
  }

  /** filter_elementor_posts_query */
  method FilterElementorPostsQuery(query: Query, isAdmin: bool, me: User, shouldFilter: bool, active: bool,
                                   stored: Options, store: UserMeta.GrantStore)
    modifies query
    ensures query.postIn ==
      if ElementorListFiltered(isAdmin, query.isMain, shouldFilter, query.postType, stored)
      then ListingConstraint(active, AllowedElementorIds(store.meta, me.id, query.postType.name))
      else old(query.postIn)
  {
    if !isAdmin || !query.isMain {
      return;
    }
    if !shouldFilter {
      return;
    }
    if query.postType.TypeList? {
      return;
    }
    var postType := query.postType.name;
    if ElementorFlag(postType).None? {
      return;
    }
    if !IsElementorTypeEnabled(stored, postType) {
      return;
    }
    if !active {
      query.SetPostIn([0]);
      return;
    }
    var allowed := store.AllowedContent(me.id, postType);
    if allowed == [] {
      query.SetPostIn([0]);
    } else {
      query.SetPostIn(allowed);
    }
  }

  /** The edit-screen check acts on this request: a filtered user opening an existing item of an enabled type. */
  predicate ElementorGuarded(shouldFilter: bool, postId: int, posts: Posts, stored: Options) {
    shouldFilter && postId != 0 && postId in posts && IsElementorTypeEnabled(stored, posts[postId].postType)
  }

  const TitlePrefix: string := "[Elementor] "

  /** check_elementor_post_access together with its log_access_attempt. */
  method CheckElementorPostAccess(me: User, shouldFilter: bool, active: bool, param: Option<string>,
                                  posts: Posts, users: Users, stored: Options, store: UserMeta.GrantStore,
                                  log: PostAccess.AccessLog)
    returns (v: Verdict)
    modifies log
    ensures var postId := PostAccess.RequestPostId(param);
      var guarded := ElementorGuarded(shouldFilter, postId, posts, stored);
      var denied := guarded && active && postId !in AllowedElementorIds(store.meta, me.id, posts[postId].postType);
      && (v == Expired <==> guarded && !active)
      && (v == Forbidden <==> denied)
      && log.raw == if denied
                    then Some(PostAccess.PushCapped(PostAccess.CurrentLog(old(log.raw)),
                           PostAccess.LogEntry(LoginOf(users, me.id), postId, TitlePrefix + posts[postId].title)))
                    else old(log.raw)
  {
    if !shouldFilter {
      return Proceed;
    }
    var postId := PostAccess.RequestPostId(param);
    if postId == 0 {
      return Proceed;
    }
    if postId !in posts {
      return Proceed;
    }
    var post := posts[postId];
    if ElementorFlag(post.postType).None? {
      return Proceed;
    }
    if !IsElementorTypeEnabled(stored, post.postType) {
      return Proceed;
    }
    if !active {
      return Expired;
    }
    var allowed := store.AllowedContent(me.id, post.postType);
    if postId !in allowed {
      log.Record(PostAccess.LogEntry(LoginOf(users, me.id), postId, TitlePrefix + TitleOf(posts, postId)));
      return Forbidden;
    }
    return Proceed;
  }

  // ---------------------------------------------------------------------
  // The Finder

  /** A Finder result; id is absent when the item has no 'id' entry (or it is null). */
  datatype FinderItem = FinderItem(id: Option<Scalar>, title: string)

  /** A Finder category; items is absent when the category has no 'items' entry. */
  datatype Category = Category(items: Option<seq<FinderItem>>)

  /** in_array($item['id'], $allowed, true): only an integer id can match. */
  predicate KeptItem(item: FinderItem, allowed: seq<int>) {
    item.id.Some? && item.id.value.SInt? && item.id.value.i in allowed
  }

  /** array_filter with KeptItem: the kept items, in their order. */
  function KeepAllowed(items: seq<FinderItem>, allowed: seq<int>): (r: seq<FinderItem>)
    ensures forall it :: it in r <==> it in items && KeptItem(it, allowed)
    ensures |r| <= |items|
  {
    if items == [] then []
    else if KeptItem(items[0], allowed) then [items[0]] + KeepAllowed(items[1..], allowed)
    else KeepAllowed(items[1..], allowed)
  }

  /** Filtering twice keeps what filtering once kept. */
  lemma {:induction false} KeepAllowedIdempotent(items: seq<FinderItem>, allowed: seq<int>)
    ensures KeepAllowed(KeepAllowed(items, allowed), allowed) == KeepAllowed(items, allowed)
  {
    if items != [] {
      KeepAllowedIdempotent(items[1..], allowed);
    }
  }

  /** The template items the Finder shows a filtered user. */
  function VisibleTemplates(items: seq<FinderItem>, active: bool, allowed: seq<int>): (r: seq<FinderItem>)
    ensures !active || allowed == [] ==> r == []
    ensures forall it :: it in r ==> it in items && KeptItem(it, allowed)
    ensures active ==> forall it :: it in items && KeptItem(it, allowed) ==> it in r
  {
    if !active then []
    else if allowed != [] then KeepAllowed(items, allowed)
    else []
  }

  /** filter_elementor_finder: only the templates category's items change. */
  function FilterElementorFinder(categories: map<string, Category>, shouldFilter: bool, active: bool,
                                 allowedTemplates: seq<int>): (r: map<string, Category>)
    ensures r.Keys == categories.Keys
    ensures forall k :: k in r && k != "templates" ==> r[k] == categories[k]
    ensures "templates" in r ==> (r["templates"] ==
      if shouldFilter && categories["templates"].items.Some?
      then Category(Some(VisibleTemplates(categories["templates"].items.value, active, allowedTemplates)))
      else categories["templates"])
  {
    if !shouldFilter then categories
    else if "templates" in categories && categories["templates"].items.Some? then
      var items := categories["templates"].items.value;
      if !active then categories["templates" := Category(Some([]))]
      else if allowedTemplates != [] then categories["templates" := Category(Some(KeepAllowed(items, allowedTemplates)))]
      else categories["templates" := Category(Some([]))]
    else categories
  }

  // ---------------------------------------------------------------------
  // Template loads in the editor

  /** The template data the editor loads; template_id is absent when not set. */
  datatype TemplateData = TemplateData(templateId: Option<Scalar>, content: string)

  /** The WP_Error code of both refusals. */
  const AccessDenied: string := "access_denied"

  /** filter_template_access: the data unchanged, or a refusal (Expired or Forbidden) with code access_denied. */
  function FilterTemplateAccess(data: TemplateData, shouldFilter: bool, active: bool, posts: Posts,
                                stored: Options, meta: UserMeta.Meta, userId: int): (r: Result<TemplateData, Verdict>)
    ensures r.Ok? ==> r.value == data
    ensures r.Err? <==>
      && shouldFilter && data.templateId.Some?
      && IntvalOf(data.templateId.value) in posts
      && IsElementorTypeEnabled(stored, posts[IntvalOf(data.templateId.value)].postType)
      && (!active || IntvalOf(data.templateId.value) !in
                     AllowedElementorIds(meta, userId, posts[IntvalOf(data.templateId.value)].postType))
    ensures r.Err? ==> (r.error == Expired <==> !active) && r.error != Proceed
  {
    if !shouldFilter then Ok(data)
    else if data.templateId.None? then Ok(data)
    else
      var templateId := IntvalOf(data.templateId.value);
      if templateId !in posts || ElementorFlag(posts[templateId].postType).None? then Ok(data)
      else if !IsElementorTypeEnabled(stored, posts[templateId].postType) then Ok(data)
      else if !active then Err(Expired)
      else if templateId !in AllowedElementorIds(meta, userId, posts[templateId].postType) then Err(Forbidden)
      else Ok(data)
  }

  /** A template the Finder still lists for a filtered user is one the editor will load. */
  lemma FinderAndEditorAgree(categories: map<string, Category>, active: bool, posts: Posts, stored: Options,
                             meta: UserMeta.Meta, userId: int, item: FinderItem)
    requires "templates" in categories && categories["templates"].items.Some?
    requires var r := FilterElementorFinder(categories, true, active,
                                            AllowedElementorIds(meta, userId, "elementor_library"));
      item in r["templates"].items.value
    requires item.id.value.i in posts && posts[item.id.value.i].postType == "elementor_library"
    ensures FilterTemplateAccess(TemplateData(item.id, ""), true, active, posts, stored, meta, userId).Ok?
  {
  }

  /** Once the schedule has expired a filtered user finds no template and loads none. */
  lemma ExpiredSeesNoTemplate(categories: map<string, Category>, data: TemplateData, posts: Posts,
                              stored: Options, meta: UserMeta.Meta, userId: int, allowed: seq<int>)
    requires "templates" in categories && categories["templates"].items.Some?
    requires data.templateId.Some? && IntvalOf(data.templateId.value) in posts
    requires IsElementorTypeEnabled(stored, posts[IntvalOf(data.templateId.value)].postType)
    ensures FilterElementorFinder(categories, true, false, allowed)["templates"].items == Some([])
    ensures FilterTemplateAccess(data, true, false, posts, stored, meta, userId) == Err(Expired)
  {
  }
}
