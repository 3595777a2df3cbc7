/**
 * Media library restriction: a restricted user sees only the attachments
 * the plugin derives from their grants (own uploads, attachments and
 * featured images of granted content, images embedded in granted content,
 * and explicitly granted media).
 */
module MediaAccess {
  import opened PhpArrays
  import opened Wp
  import opened Settings
  import UserMeta
  import opened ContentScanner

  /** The constructor hooks the three filters only while media_restriction (default on) is set. */
  predicate MediaRestrictionOn(stored: Options) {
    Truthy(Get(stored, MediaRestriction, Bool(true)))
  }

  /** On with nothing stored; after a save, on exactly when the submitted form set the flag. */
  lemma MediaRestrictionSwitch(input: Options, sanitizeKey: string -> string)
    ensures MediaRestrictionOn(map[])
    ensures MediaRestrictionOn(SanitizeSettings(input, sanitizeKey)) <==> FlagSet(input, MediaRestriction)
  {
    assert MediaRestriction in FlagKeys;
  }

  // ---------------------------------------------------------------------
  // get_images_from_content

  /** The IDs get_images_from_content returns for a post body. */
  function BodyImageIds(c: string): seq<int> {
    var galleries := Scan(GalleryBlock, c, 0);
    var shortcodes := Scan(GalleryShortcode, c, 0);
    MapIntval(Scan(ImageBlock, c, 0)) + FlatMap(galleries, ListIds, |galleries|)
    + FlatMap(shortcodes, ListIds, |shortcodes|) + MapIntval(Scan(ImageClass, c, 0))
  }

  /** The IDs get_images_from_content returns for a post: none for a missing post. */
  function ContentImageIds(posts: Posts, postId: int): seq<int> {
    if postId !in posts then [] else BodyImageIds(posts[postId].content)
  }

  /** The loop over the captures of one gallery pattern. */
  method AppendListCaptures(acc: seq<int>, caps: seq<string>) returns (r: seq<int>)
    ensures r == acc + FlatMap(caps, ListIds, |caps|)
  {
    r := acc;
    for i := 0 to |caps|
      invariant r == acc + FlatMap(caps, ListIds, i)
    {
      var ids := MapIntval(Split(caps[i], ','));
      AppendAssoc(acc, FlatMap(caps, ListIds, i), ids);
      r := r + ids;
    }
  }

  /** get_images_from_content: the four scans, the two gallery scans split on commas. */
  method ImagesFromContent(posts: Posts, postId: int) returns (ids: seq<int>)
    ensures postId !in posts ==> ids == []
    ensures ids == ContentImageIds(posts, postId)
  {
    if postId !in posts {
      return [];
    }
    var content := posts[postId].content;
    var blocks := Scan(ImageBlock, content, 0);
    var galleries := Scan(GalleryBlock, content, 0);
    var shortcodes := Scan(GalleryShortcode, content, 0);
    var classes := Scan(ImageClass, content, 0);
    var imageIds := AppendListCaptures(MapIntval(blocks), galleries);
    imageIds := AppendListCaptures(imageIds, shortcodes);
    ids := imageIds + MapIntval(classes);
  }

  /** x is intval of a comma-separated piece of the capture of some pattern match in s. */
  ghost predicate FromMatch(s: string, x: int) {
    exists pat: Pattern, p: nat :: p < |s| && MatchAt(pat, s, p).Some? &&
      x in ListIds(MatchAt(pat, s, p).value.capture)
  }

  lemma {:induction false} SplitWithoutSep(s: string, sep: char)
    requires sep !in s
    ensures Split(s, sep) == [s]
  {
    if s != [] {
      SplitWithoutSep(s[1..], sep);
      assert [s[0]] + s[1..] == s;
    }
  }

  lemma CaptureIdFromMatch(pat: Pattern, s: string, c: string, x: int)
    requires c in Scan(pat, s, 0)
    requires x in ListIds(c)
    ensures FromMatch(s, x)
  {
    ScanSound(pat, s, 0, c);
  }

  lemma ListCapturesSound(pat: Pattern, s: string, x: int)
    requires x in FlatMap(Scan(pat, s, 0), ListIds, |Scan(pat, s, 0)|)
    ensures FromMatch(s, x)
  {
    var caps := Scan(pat, s, 0);
    FlatMapMembers(caps, ListIds, |caps|, x);
    var i :| 0 <= i < |caps| && x in ListIds(caps[i]);
    CaptureIdFromMatch(pat, s, caps[i], x);
  }

  lemma DigitCaptureIdSound(pat: Pattern, s: string, x: int)
    requires pat == ImageBlock || pat == ImageClass
    requires x in MapIntval(Scan(pat, s, 0))
    ensures FromMatch(s, x)
  {
    var caps := Scan(pat, s, 0);
    var i :| 0 <= i < |caps| && MapIntval(caps)[i] == x;
    var c := caps[i];
    ScanSound(pat, s, 0, c);
    var p :| 0 <= p < |s| && MatchAt(pat, s, p).Some? && MatchAt(pat, s, p).value.capture == c;
    assert AllDigits(c);
    assert ',' !in c by {
      forall k | 0 <= k < |c| ensures c[k] != ',' {
        assert IsDigit(c[k]);
      }
    }
    SplitWithoutSep(c, ',');
    assert ListIds(c) == [Intval(c)];
  }

  /** Every ID found in a post body comes from a match of one of the four patterns. */
  lemma ContentImageIdsSound(posts: Posts, postId: int, x: int)
    requires x in ContentImageIds(posts, postId)
    ensures postId in posts && FromMatch(posts[postId].content, x)
  {
    var c := posts[postId].content;
    if x in MapIntval(Scan(ImageBlock, c, 0)) {
      DigitCaptureIdSound(ImageBlock, c, x);
    } else if x in FlatMap(Scan(GalleryBlock, c, 0), ListIds, |Scan(GalleryBlock, c, 0)|) {
      ListCapturesSound(GalleryBlock, c, x);
    } else if x in FlatMap(Scan(GalleryShortcode, c, 0), ListIds, |Scan(GalleryShortcode, c, 0)|) {
      ListCapturesSound(GalleryShortcode, c, x);
    } else {
      DigitCaptureIdSound(ImageClass, c, x);
    }
  }

  // ---------------------------------------------------------------------
  // get_allowed_media_ids

  /** The WordPress queries the media resolver asks. */
  datatype MediaQueries = MediaQueries(
    ownUploads: seq<int>,             // attachments the user authored
    attachedTo: seq<int> -> seq<int>, // attachments whose parent is in the list
    thumbnailOf: int -> int,          // get_post_thumbnail_id; 0 when none
    posts: Posts)

  /** The featured image of a post, when it has one. */
  function Thumbnail(q: MediaQueries, postId: int): seq<int> {
    var t := q.thumbnailOf(postId);
    if t != 0 then [t] else []
  }

  function ThumbnailFn(q: MediaQueries): int -> seq<int> {
    postId => Thumbnail(q, postId)
  }

  function ImagesFn(posts: Posts): int -> seq<int> {
    postId => ContentImageIds(posts, postId)
  }

  /** What one granted content list adds: its attachments, featured images and embedded images. */
  function ContentMedia(content: seq<int>, q: MediaQueries): seq<int> {
    if content == [] then []
    else q.attachedTo(content) + FlatMap(content, ThumbnailFn(q), |content|)
         + FlatMap(content, ImagesFn(q.posts), |content|)
  }

  /** What the grant of one post type adds. */
  function TypeMediaFn(meta: UserMeta.Meta, userId: int, q: MediaQueries): string -> seq<int> {
    postType => ContentMedia(UserMeta.ReadIds(meta, userId, UserMeta.ContentKey(postType)), q)
  }

  /** The post types the resolver walks: enabled_post_types, defaulting to page and post. */
  function MediaTypes(stored: Options): seq<string> {
    AsList(Get(stored, EnabledPostTypes, List(["page", "post"])))
  }

  /** Every candidate, in the order get_allowed_media_ids merges them. */
  function MediaCandidates(meta: UserMeta.Meta, userId: int, stored: Options, q: MediaQueries): seq<int> {
    q.ownUploads + FlatMap(MediaTypes(stored), TypeMediaFn(meta, userId, q), |MediaTypes(stored)|)
    + UserMeta.ReadIds(meta, userId, UserMeta.Media)
  }

  /** The featured-image loop of one content list. */
  method AppendThumbnails(acc: seq<int>, content: seq<int>, q: MediaQueries) returns (r: seq<int>)
    ensures r == acc + FlatMap(content, ThumbnailFn(q), |content|)
  {
    r := acc;
    for j := 0 to |content|
      invariant r == acc + FlatMap(content, ThumbnailFn(q), j)
    {
      var thumbnail := q.thumbnailOf(content[j]);
      FlatMapStep(content, ThumbnailFn(q), j);
      AppendAssoc(acc, FlatMap(content, ThumbnailFn(q), j), Thumbnail(q, content[j]));
      if thumbnail != 0 {
        r := r + [thumbnail];
      } else {
        assert r + [] == r;
      }
    }
  }

  /** The embedded-image loop of one content list. */
  method AppendContentImages(acc: seq<int>, content: seq<int>, posts: Posts) returns (r: seq<int>)
    ensures r == acc + FlatMap(content, ImagesFn(posts), |content|)
  {
    r := acc;
    for j := 0 to |content|
      invariant r == acc + FlatMap(content, ImagesFn(posts), j)
    {
      var images := ImagesFromContent(posts, content[j]);
      assert images == ImagesFn(posts)(content[j]);
      FlatMapStep(content, ImagesFn(posts), j);
      AppendAssoc(acc, FlatMap(content, ImagesFn(posts), j), images);
      r := r + images;
    }
  }

  /** The media one enabled post type's grant adds. */
  method TypeMedia(store: UserMeta.GrantStore, userId: int, postType: string, q: MediaQueries)
    returns (added: seq<int>)
    ensures added == TypeMediaFn(store.meta, userId, q)(postType)
  {
    var content := store.AllowedContent(userId, postType);
    added := [];
    if content != [] {
      added := q.attachedTo(content);
      added := AppendThumbnails(added, content, q);
      added := AppendContentImages(added, content, q.posts);
    }
  }

  /** get_allowed_media_ids */
  method AllowedMediaIds(store: UserMeta.GrantStore, userId: int, stored: Options, q: MediaQueries)
    returns (ids: seq<int>)
    ensures ids == DropZeros(Unique(MediaCandidates(store.meta, userId, stored, q)))
  {
    var allowed := q.ownUploads;
    var types := MediaTypes(stored);
    for i := 0 to |types|
      invariant allowed == q.ownUploads + FlatMap(types, TypeMediaFn(store.meta, userId, q), i)
    {
      var added := TypeMedia(store, userId, types[i], q);
      AppendAssoc(q.ownUploads, FlatMap(types, TypeMediaFn(store.meta, userId, q), i), added);
      allowed := allowed + added;
    }
    allowed := allowed + store.AllowedMedia(userId);
    ids := DropZeros(Unique(allowed));
  }

  /** The allowed media: no duplicates, no 0, and exactly the non-zero candidates. */
  lemma AllowedMediaShape(candidates: seq<int>)
    ensures NoDup(DropZeros(Unique(candidates)))
    ensures 0 !in DropZeros(Unique(candidates))
    ensures forall x :: x in DropZeros(Unique(candidates)) <==> x != 0 && x in candidates
  {
    DropZerosKeepsNoDup(Unique(candidates));
  }

  /** A granted content list contributes its attachments, featured images and embedded images. */
  lemma ContentMediaMembers(content: seq<int>, q: MediaQueries, x: int)
    ensures x in ContentMedia(content, q) <==>
      content != [] &&
      (x in q.attachedTo(content) ||
       (x != 0 && exists i :: 0 <= i < |content| && q.thumbnailOf(content[i]) == x) ||
       exists i :: 0 <= i < |content| && x in ContentImageIds(q.posts, content[i]))
  {
    FlatMapMembers(content, ThumbnailFn(q), |content|, x);
    FlatMapMembers(content, ImagesFn(q.posts), |content|, x);
  }

  /** The media a restricted user may see is the union of the five sources, without 0. */
  lemma AllowedMediaIsUnion(meta: UserMeta.Meta, userId: int, stored: Options, q: MediaQueries, x: int)
    ensures x in DropZeros(Unique(MediaCandidates(meta, userId, stored, q))) <==>
      x != 0 &&
      (x in q.ownUploads ||
       (exists i :: 0 <= i < |MediaTypes(stored)| &&
         x in ContentMedia(UserMeta.ReadIds(meta, userId, UserMeta.ContentKey(MediaTypes(stored)[i])), q)) ||
       x in UserMeta.ReadIds(meta, userId, UserMeta.Media))
  {
    FlatMapMembers(MediaTypes(stored), TypeMediaFn(meta, userId, q), |MediaTypes(stored)|, x);
  }

  // ---------------------------------------------------------------------
  // The three filters

  /**
   * filter_media_library (the grid view's AJAX query) and
   * filter_rest_attachments (the REST attachment collection): both set
   * post__in on the query arguments the same way.
   */
  function FilterAttachmentArgs(args: QueryArgs, shouldFilter: bool, active: bool, allowed: seq<int>): (r: QueryArgs)
    ensures r.includeIds == args.includeIds
    ensures r.postIn == if shouldFilter then Some(ListingConstraint(active, allowed)) else args.postIn
  {
    if !shouldFilter then args
    else if !active then args.(postIn := Some([0]))
    else if allowed == [] then args.(postIn := Some([0]))
    else args.(postIn := Some(allowed))
  }

  /** filter_media_list_view: the main admin query on upload.php only. */
  method FilterMediaListView(query: Query, isAdmin: bool, pagenow: string, shouldFilter: bool, active: bool,
                             allowed: seq<int>)
    modifies query
    ensures query.postIn == if isAdmin && query.isMain && pagenow == "upload.php" && shouldFilter
                            then ListingConstraint(active, allowed) else old(query.postIn)
  {
    if !isAdmin || !query.isMain {
      return;
    }
    if pagenow != "upload.php" {
      return;
    }
    if !shouldFilter {
      return;
    }
    if !active {
      query.SetPostIn([0]);
      return;
    }
    if allowed == [] {
      query.SetPostIn([0]);
    } else {
      query.SetPostIn(allowed);
    }
  }
}
