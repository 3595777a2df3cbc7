/**
 * The REST API filters: collection queries of a restricted user are limited
 * to the IDs granted for the post type (directly, or through granted
 * taxonomy terms), and a single item outside that set is answered with the
 * rpa_forbidden error (status 403).
 */
module RestFilter {
  import opened PhpArrays
  import opened Settings
  import UserMeta

  /** The two collection-query arguments the filter reads or writes. */
  datatype RestArgs = RestArgs(postType: Option<string>, postIn: Option<seq<int>>)

  /** The post type of a REST query: args['post_type'] when set, else 'post'. */
  function RestType(args: RestArgs): string {
    if args.postType.Some? then args.postType.value else "post"
  }

  /** !empty($args['post__in']) */
  predicate HasPostIn(args: RestArgs) {
    args.postIn.Some? && args.postIn.value != []
  }

  /** Whether filter_rest_query acts at all. */
  predicate QueryFiltered(args: RestArgs, restricted: bool, userId: int, stored: Options) {
    restricted && userId != 0 && IsPostTypeEnabled(stored, RestType(args))
  }

  /**
   * filter_rest_query; allowed is the allowed-ID list of the query's post
   * type (AllowedIdsForType).
   */
  function FilterRestQuery(args: RestArgs, restricted: bool, userId: int, stored: Options, allowed: seq<int>): (r: RestArgs)
    ensures !QueryFiltered(args, restricted, userId, stored) ==> r == args
    ensures QueryFiltered(args, restricted, userId, stored) ==>
      && r.postType == args.postType
      && r.postIn.Some? && r.postIn.value != []
      && (forall x :: x in r.postIn.value ==> x == 0 || x in allowed)
      && (allowed == [] ==> r.postIn.value == [0])
      && (allowed != [] && !HasPostIn(args) ==> r.postIn.value == allowed)
      && (allowed != [] && HasPostIn(args) ==>
            forall x :: x != 0 ==> (x in r.postIn.value <==> x in args.postIn.value && x in allowed))
  {
    if !restricted then args
    else if userId == 0 then args
    else
      var postType := RestType(args);
      if !IsPostTypeEnabled(stored, postType) then args
      else if allowed == [] then args.(postIn := Some([0]))
      else if HasPostIn(args) then
        var both := Intersect(args.postIn.value, allowed);
        args.(postIn := Some(if both == [] then [0] else both))
      else args.(postIn := Some(allowed))
  }

  /** The answer to a single-item request. */
  datatype RestOutcome = Pass | Forbidden(code: string, status: int)

  /** filter_rest_response for a post of the given ID and type. */
  function FilterRestResponse(restricted: bool, userId: int, stored: Options,
                              postId: int, postType: string, allowed: seq<int>): (r: RestOutcome)
    ensures r.Forbidden? <==>
      restricted && userId != 0 && IsPostTypeEnabled(stored, postType) && postId !in allowed
    ensures r.Forbidden? ==> r.code == "rpa_forbidden" && r.status == 403
  {
    if !restricted then Pass
    else if userId == 0 then Pass
    else if !IsPostTypeEnabled(stored, postType) then Pass
    else if postId !in allowed then Forbidden("rpa_forbidden", 403)
    else Pass
  }

  /**
   * The list and the single-item filters agree: a real ID the filtered query
   * can still return is one whose item request passes.
   */
  lemma QueryAndResponseAgree(args: RestArgs, restricted: bool, userId: int, stored: Options,
                              allowed: seq<int>, x: int)
    requires QueryFiltered(args, restricted, userId, stored)
    requires x != 0 && x in FilterRestQuery(args, restricted, userId, stored, allowed).postIn.value
    ensures FilterRestResponse(restricted, userId, stored, x, RestType(args), allowed) == Pass
  {
  }

  // ---------------------------------------------------------------------
  // get_allowed_ids_for_type and get_ids_from_allowed_taxonomies

  /** What get_taxonomy tells: the registered taxonomies and their object types. */
  type Taxonomies = map<string, seq<string>>

  /** get_posts of a post type whose terms in a taxonomy include one of the given term IDs. */
  type TermQuery = (string, string, seq<int>) -> seq<int>

  /** The IDs one enabled taxonomy contributes for a post type. */
  function TaxonomyContribution(meta: UserMeta.Meta, userId: int, postType: string, taxonomy: string,
                                registered: Taxonomies, postsInTerms: TermQuery): seq<int>
  {
    var terms := UserMeta.ReadIds(meta, userId, UserMeta.Terms(taxonomy));
    if taxonomy !in registered || postType !in registered[taxonomy] then []
    else if terms == [] then []
    else postsInTerms(postType, taxonomy, terms)
  }

  /** The merged contributions of a list of taxonomies, in order. */
  function TaxonomyIds(meta: UserMeta.Meta, userId: int, postType: string, taxonomies: seq<string>,
                       registered: Taxonomies, postsInTerms: TermQuery): seq<int>
  {
    if taxonomies == [] then []
    else
      TaxonomyIds(meta, userId, postType, taxonomies[..|taxonomies| - 1], registered, postsInTerms)
      + TaxonomyContribution(meta, userId, postType, taxonomies[|taxonomies| - 1], registered, postsInTerms)
  }

  /** An ID comes from the taxonomies iff some enabled taxonomy contributes it. */
  lemma {:induction false} TaxonomyIdsMembers(meta: UserMeta.Meta, userId: int, postType: string,
                                              taxonomies: seq<string>, registered: Taxonomies,
                                              postsInTerms: TermQuery, x: int)
    ensures x in TaxonomyIds(meta, userId, postType, taxonomies, registered, postsInTerms) <==>
      exists i :: 0 <= i < |taxonomies| &&
        x in TaxonomyContribution(meta, userId, postType, taxonomies[i], registered, postsInTerms)
  {
    if taxonomies != [] {
      var init := taxonomies[..|taxonomies| - 1];
      TaxonomyIdsMembers(meta, userId, postType, init, registered, postsInTerms, x);
      if x in TaxonomyContribution(meta, userId, postType, taxonomies[|taxonomies| - 1], registered, postsInTerms) {
        assert 0 <= |taxonomies| - 1 < |taxonomies|;
      }
      if exists i :: 0 <= i < |taxonomies| &&
           x in TaxonomyContribution(meta, userId, postType, taxonomies[i], registered, postsInTerms) {
        var i :| 0 <= i < |taxonomies| &&
           x in TaxonomyContribution(meta, userId, postType, taxonomies[i], registered, postsInTerms);
        if i < |taxonomies| - 1 {
          assert taxonomies[i] == init[i];
        }
      }
    }
  }

  /** get_ids_from_allowed_taxonomies: accumulates each enabled taxonomy's posts, then array_unique. */
  method IdsFromAllowedTaxonomies(store: UserMeta.GrantStore, userId: int, postType: string, stored: Options,
                                  registered: Taxonomies, postsInTerms: TermQuery) returns (ids: seq<int>)
    ensures NoDup(ids)
    ensures ids == Unique(TaxonomyIds(store.meta, userId, postType,
                                      AsList(Get(stored, EnabledTaxonomies, List([]))), registered, postsInTerms))
  {
    var enabled := AsList(Get(stored, EnabledTaxonomies, List([])));
    if enabled == [] {
      return [];
    }
    var postIds: seq<int> := [];
    for i := 0 to |enabled|
      invariant postIds == TaxonomyIds(store.meta, userId, postType, enabled[..i], registered, postsInTerms)
    {
      assert enabled[..i + 1][..i] == enabled[..i];
      var taxonomy := enabled[i];
      if taxonomy !in registered || postType !in registered[taxonomy] {
        continue;
      }
      var terms := store.AllowedTerms(userId, taxonomy);
      if terms == [] {
        continue;
      }
      var posts := postsInTerms(postType, taxonomy, terms);
      postIds := postIds + posts;
    }
    assert enabled[..|enabled|] == enabled;
    ids := Unique(postIds);
  }

  /** get_allowed_ids_for_type: the direct grant of the type plus the taxonomy-derived IDs, deduplicated. */
  method AllowedIdsForType(store: UserMeta.GrantStore, userId: int, postType: string, stored: Options,
                           registered: Taxonomies, postsInTerms: TermQuery) returns (ids: seq<int>)
    ensures NoDup(ids)
    ensures forall x :: x in ids <==>
      x in store.AllowedContent(userId, postType) ||
      exists i :: 0 <= i < |AsList(Get(stored, EnabledTaxonomies, List([])))| &&
        x in TaxonomyContribution(store.meta, userId, postType,
                                  AsList(Get(stored, EnabledTaxonomies, List([])))[i], registered, postsInTerms)
  {
    var allowed: seq<int>;
    match postType {
      case "page" => allowed := store.AllowedPages(userId);
      case "post" => allowed := store.AllowedPosts(userId);
      case _ => allowed := store.AllowedContent(userId, postType);
    }
    var taxonomyIds := IdsFromAllowedTaxonomies(store, userId, postType, stored, registered, postsInTerms);
    ids := Union(allowed, taxonomyIds);
    forall x | true
      ensures x in ids <==>
        x in store.AllowedContent(userId, postType) ||
        exists i :: 0 <= i < |AsList(Get(stored, EnabledTaxonomies, List([])))| &&
          x in TaxonomyContribution(store.meta, userId, postType,
                                    AsList(Get(stored, EnabledTaxonomies, List([])))[i], registered, postsInTerms)
    {
      TaxonomyIdsMembers(store.meta, userId, postType, AsList(Get(stored, EnabledTaxonomies, List([]))),
                         registered, postsInTerms, x);
    }
  }
}
