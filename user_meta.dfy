/**
 * The per-user grant store kept in user meta.
 *
 * Pages and posts live under the meta keys rpa_allowed_pages and
 * rpa_allowed_posts. Grants for other post types, for media and for taxonomy
 * terms, and the access schedule, are kept by accessors that are not part of
 * this model; they are entries of the same store under their own keys.
 */
module UserMeta {
  import opened PhpArrays

  /** Which grant a meta row holds; pages and posts live under rpa_allowed_pages and rpa_allowed_posts. */
  datatype GrantKey = Pages | Posts | Content(postType: string) | Media | Terms(taxonomy: string)

  /** A stored meta value: an ID list, or anything that is not an array. */
  datatype MetaValue = IdList(ids: seq<int>) | NotAList

  type Meta = map<(int, GrantKey), MetaValue>

  /** get_user_meta(user, key, true), read as an ID list: anything but a list reads as []. */
  function ReadIds(meta: Meta, user: int, key: GrantKey): (r: seq<int>)
    ensures (user, key) in meta && meta[(user, key)].IdList? ==> r == meta[(user, key)].ids
    ensures (user, key) !in meta || meta[(user, key)].NotAList? ==> r == []
  {
    if (user, key) in meta && meta[(user, key)].IdList? then meta[(user, key)].ids else []
  }

  /** The key get_user_allowed_content reads for a post type: pages and posts have their own. */
  function ContentKey(postType: string): (k: GrantKey)
    ensures postType == "page" ==> k == Pages
    ensures postType == "post" ==> k == Posts
    ensures postType != "page" && postType != "post" ==> k == Content(postType)
  {
    if postType == "page" then Pages
    else if postType == "post" then Posts
    else Content(postType)
  }

  /** The list a setter stores from the intval'd items: the page and post setters also drop zeros. */
  function StoredList(grant: GrantKey, ids: seq<int>): seq<int> {
    if grant == Pages || grant == Posts then DropZeros(ids) else ids
  }

  /** The meta after a grant's setter stores ids for a user. */
  function Written(meta: Meta, user: int, grant: GrantKey, ids: seq<int>): Meta {
    meta[(user, grant) := IdList(StoredList(grant, ids))]
  }

  /** key holds the same value, or is absent, in both metas. */
  predicate SameAt(m1: Meta, m2: Meta, key: (int, GrantKey)) {
    (key in m1 <==> key in m2) && (key in m1 ==> m1[key] == m2[key])
  }

  /** An access schedule: optional start and end dates. */
  datatype Schedule = Schedule(start: Option<string>, end: Option<string>)

  class GrantStore {
    var meta: Meta
    var schedules: map<int, Schedule>

    constructor ()
      ensures meta == map[] && schedules == map[]
    {
      meta := map[];
      schedules := map[];
    }

    /** get_user_allowed_pages */
    function AllowedPages(user: int): seq<int>
      reads this
    {
      ReadIds(meta, user, Pages)
    }

    /** get_user_allowed_posts */
    function AllowedPosts(user: int): seq<int>
      reads this
    {
      ReadIds(meta, user, Posts)
    }

    /** get_user_allowed_content */
    function AllowedContent(user: int, postType: string): seq<int>
      reads this
    {
      ReadIds(meta, user, ContentKey(postType))
    }

    /** get_user_allowed_media */
    function AllowedMedia(user: int): seq<int>
      reads this
    {
      ReadIds(meta, user, Media)
    }

    /** get_user_allowed_taxonomy_terms */
    function AllowedTerms(user: int, taxonomy: string): seq<int>
      reads this
    {
      ReadIds(meta, user, Terms(taxonomy))
    }

    /** get_user_access_schedule: no dates when none was stored. */
    function ScheduleOf(user: int): Schedule
      reads this
    {
      if user in schedules then schedules[user] else Schedule(None, None)
    }

    /** set_user_allowed_pages: stores the intval of each item with every 0 removed; nothing else changes. */
    method SetAllowedPages(user: int, ids: seq<Scalar>)
      modifies this
      ensures meta == old(meta)[(user, Pages) := IdList(DropZeros(IntvalAll(ids)))]
      ensures schedules == old(schedules)
      ensures forall x :: x in AllowedPages(user) <==> x != 0 && exists i :: 0 <= i < |ids| && IntvalOf(ids[i]) == x
      ensures forall u :: AllowedPosts(u) == old(AllowedPosts(u))
    {
      var pageIds := IntvalAll(ids);
      pageIds := DropZeros(pageIds);
      meta := meta[(user, Pages) := IdList(pageIds)];
      IntvalAllMembers(ids);
    }

    /** set_user_allowed_posts: stores the intval of each item with every 0 removed; nothing else changes. */
    method SetAllowedPosts(user: int, ids: seq<Scalar>)
      modifies this
      ensures meta == old(meta)[(user, Posts) := IdList(DropZeros(IntvalAll(ids)))]
      ensures schedules == old(schedules)
      ensures forall x :: x in AllowedPosts(user) <==> x != 0 && exists i :: 0 <= i < |ids| && IntvalOf(ids[i]) == x
      ensures forall u :: AllowedPages(u) == old(AllowedPages(u))
    {
      var postIds := IntvalAll(ids);
      postIds := DropZeros(postIds);
      meta := meta[(user, Posts) := IdList(postIds)];
      IntvalAllMembers(ids);
    }

    /** set_user_allowed_content: pages and posts go through their own setters. */
    method SetAllowedContent(user: int, postType: string, ids: seq<Scalar>)
      modifies this
      ensures meta == old(meta)[(user, ContentKey(postType)) := IdList(StoredList(ContentKey(postType), IntvalAll(ids)))]
      ensures schedules == old(schedules)
    {
      if postType == "page" {
        SetAllowedPages(user, ids);
      } else if postType == "post" {
        SetAllowedPosts(user, ids);
      } else {
        meta := meta[(user, Content(postType)) := IdList(IntvalAll(ids))];
      }
    }

    /** set_user_allowed_media */
    method SetAllowedMedia(user: int, ids: seq<Scalar>)
      modifies this
      ensures meta == old(meta)[(user, Media) := IdList(IntvalAll(ids))]
      ensures schedules == old(schedules)
    {
      meta := meta[(user, Media) := IdList(IntvalAll(ids))];
    }

    /** set_user_allowed_taxonomy_terms */
    method SetAllowedTerms(user: int, taxonomy: string, ids: seq<Scalar>)
      modifies this
      ensures meta == old(meta)[(user, Terms(taxonomy)) := IdList(IntvalAll(ids))]
      ensures schedules == old(schedules)
    {
      meta := meta[(user, Terms(taxonomy)) := IdList(IntvalAll(ids))];
    }

    /** set_user_access_schedule */
    method SetSchedule(user: int, schedule: Schedule)
      modifies this
      ensures schedules == old(schedules)[user := schedule]
      ensures meta == old(meta)
    {
      schedules := schedules[user := schedule];
    }

    /** Stores integer ids under a grant with that grant's setter. */
    method SetGrant(user: int, grant: GrantKey, ids: seq<int>)
      requires grant.Content? ==> grant.postType !in ["page", "post"]
      modifies this
      ensures meta == Written(old(meta), user, grant, ids)
      ensures schedules == old(schedules)
    {
      IntvalAllOfInts(ids);
      match grant {
        case Pages => SetAllowedPages(user, AsScalars(ids));
        case Posts => SetAllowedPosts(user, AsScalars(ids));
        case Content(postType) => SetAllowedContent(user, postType, AsScalars(ids));
        case Media => SetAllowedMedia(user, AsScalars(ids));
        case Terms(taxonomy) => SetAllowedTerms(user, taxonomy, AsScalars(ids));
      }
    }

    /** clear_user_access: deletes both list keys of the user; both read back empty. */
    method ClearUserAccess(user: int)
      modifies this
      ensures meta == old(meta) - {(user, Pages), (user, Posts)}
      ensures schedules == old(schedules)
      ensures AllowedPages(user) == [] && AllowedPosts(user) == []
    {
      meta := meta - {(user, Pages), (user, Posts)};
    }
  }

  // Properties of the store, stated on the meta map the class holds.

  /** What set_user_allowed_pages/posts stores reads back as exactly the non-zero intvals of the input. */
  lemma SetThenGet(meta: Meta, user: int, key: GrantKey, ids: seq<Scalar>, x: int)
    ensures x in ReadIds(meta[(user, key) := IdList(DropZeros(IntvalAll(ids)))], user, key) <==>
            x != 0 && exists i :: 0 <= i < |ids| && IntvalOf(ids[i]) == x
  {
    IntvalAllMembers(ids);
  }

  /** A write to one (user, key) leaves every other grant as it was. */
  lemma WriteIsolated(meta: Meta, user: int, key: GrantKey, v: MetaValue, user': int, key': GrantKey)
    requires (user, key) != (user', key')
    ensures ReadIds(meta[(user, key) := v], user', key') == ReadIds(meta, user', key')
  {
  }

  /** The stored page/post list never holds 0; negative IDs are kept. */
  lemma StoredListHasNoZero(ids: seq<int>)
    ensures 0 !in DropZeros(ids)
    ensures forall x :: x in ids && x < 0 ==> x in DropZeros(ids)
  {
  }

  /** Storing a grant twice stores the same list as storing it once. */
  lemma {:induction false} SetIdempotent(ids: seq<int>)
    ensures DropZeros(DropZeros(ids)) == DropZeros(ids)
  {
    DropZerosIdentity(DropZeros(ids));
  }
}
