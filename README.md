# Restricted Pages Access: the access-decision core in Dafny

This project models the core of a WordPress plugin that limits which pages,
posts, custom post types, media, WooCommerce items and Elementor templates a
user with a restricted role may see and edit. An administrator grants a user
explicit lists of IDs (kept in user meta), or grants taxonomy terms. The
plugin then:

- narrows admin list queries, REST collection queries, the media library and
  the parent-page dropdown to the granted IDs, using the sentinel `[0]` when
  nothing is granted;
- refuses the edit screen and single REST items outside the grant (HTTP 403,
  REST code `rpa_forbidden`) and records each refused attempt in a log capped
  at 50 entries;
- treats a user whose access schedule has expired as having no grant at all.

The plugin also has reusable access templates, a JSON export/import of
settings, templates and grants, and WP-CLI commands that grant, revoke and
copy access.

One Dafny module models each PHP class:

| module | models |
|---|---|
| `PhpArrays` (common.dfy) | the PHP array and string functions the plugin relies on: `array_filter`, `array_unique`, `array_merge`, `array_diff`, `array_intersect`, `intval`, `explode`/`implode`, `strtolower`; string-keyed arrays as association lists |
| `Wp` (wp.dfy) | the WordPress state the core reads: users, posts, the current request, a `WP_Query` |
| `UserMeta` (user_meta.dfy) | `RPA_User_Meta_Handler`: the per-user grant store, as a class over a meta map |
| `Settings` (settings.dfy) | `RPA_Settings`: defaults, `get`, sanitising on save, restricted roles, enabled post types |
| `AccessFilter` (access_filter.dfy) | `RPA_Access_Filter`: the admin list query and the parent-page dropdown |
| `PostAccess` (post_access.dfy) | `RPA_Post_Access`: the edit-screen guard and the capped access log |
| `RestFilter` (rest_filter.dfy) | `RPA_REST_API_Filter`: REST collection queries and single items, with taxonomy-derived IDs |
| `ContentScanner`, `MediaAccess` (content_scanner.dfy, media_access.dfy) | `RPA_Media_Access`: the media a user may see and the four patterns that find images in post content |
| `AccessTemplates` (templates.dfy) | `RPA_Access_Templates`: the template store, applying in merge and replace modes, creating a template from a user, summaries |
| `ExportImport` (export_import.dfy) | `RPA_Export_Import`: `generate_export_data` and `import_data` |
| `WooCommerce`, `Elementor` (woocommerce.dfy, elementor.dfy) | the two integrations: products, orders, coupons, Elementor templates and theme-builder items |
| `Cli` (wpcli.dfy) | the WP-CLI `grant`, `revoke` and `copy-access` commands, user lookup, and the status column of `list-users` |

The plugin ships its classes twice, with the prefixes `RPA_` and
`SFAccess_`, and the same bodies. The model has one copy of each class.
Where the plugin's own descriptions and its code disagree, the model
follows the code:

- `revoke` with an ID list that parses to nothing is not an error. It
  removes nothing and reports 0.
- `import_data` always returns true.

`get_user_allowed_content` and the other accessors for media, custom types,
terms and schedules are called by the core but are not part of the visible
handler. The model assumes that `get_user_allowed_content('page')` reads the
page list and `('post')` the post list, and that their setters apply `intval`
to each item as the page and post setters do.

WordPress calls that the core makes become parameters or data: `get_post`
is a map of posts, and `get_users`, `get_user_by`, `get_posts` and the
taxonomy queries are functions. `is_user_access_active` becomes a boolean
`active`. The clock, `wp_generate_uuid4` and `get_site_url` become
parameters, and `sanitize_key` and `sanitize_text_field` become function
parameters.

## Model

| member | source | states |
|---|---|---|
| PhpArrays.Sentinel | includes/class-access-filter.php:59-63 | the list set on a query is never empty, is the given list when that is non-empty, and otherwise holds only 0 |
| PhpArrays.ListingConstraint | includes/integrations/class-woocommerce.php:128-142 | a listing constraint is never empty; with expired access it is `[0]`; otherwise it is the allowed list when that is non-empty; every member is 0 or an allowed ID of an active user |
| PhpArrays.DropZeros | includes/class-user-meta-handler.php:47-48 | `array_filter` keeps exactly the non-zero members, in order, and never lengthens the list |
| PhpArrays.DropZerosAppend | includes/class-user-meta-handler.php:47-48 | filtering a concatenation concatenates the filtered parts, so the survivors keep their order; a single 0 is dropped and any other single item kept |
| PhpArrays.DropZerosIdentity | includes/class-user-meta-handler.php:47-48 | filtering a list that has no 0 changes nothing |
| PhpArrays.DropZerosKeepsNoDup | includes/class-media-access.php:116-117 | filtering a duplicate-free list keeps it duplicate-free |
| PhpArrays.Unique | includes/class-settings.php:290 | `array_unique` gives a duplicate-free list with the same members, no longer than the input |
| PhpArrays.UniqueOfNoDup | includes/class-settings.php:290 | `array_unique` leaves a duplicate-free list as it is |
| PhpArrays.UniqueAppendPresent | includes/class-wpcli.php:234 | merging IDs that are already present into a duplicate-free list gives the same list back |
| PhpArrays.Union | includes/class-wpcli.php:234 | `array_unique(array_merge(a, b))` is duplicate-free and holds exactly the members of a or b |
| PhpArrays.UnionIdempotent | includes/class-access-templates.php:104 | merging the same list in twice gives what merging it once gives |
| PhpArrays.FlatMapMembers | includes/class-media-access.php:96-107 | a value is in the concatenation of per-item lists iff it is in one item's list |
| PhpArrays.Diff | includes/class-wpcli.php:309 | `array_diff(a, b)` holds exactly the members of a not in b, no more items than a |
| PhpArrays.Intersect | includes/class-rest-api-filter.php:96 | `array_intersect(a, b)` holds exactly the members of a that are in b, no more items than a |
| PhpArrays.DiffThenUnion | includes/class-wpcli.php:234-310 | revoking then granting the same IDs leaves the members of either list |
| PhpArrays.LeadingDigits | includes/class-wpcli.php:224 | the digit prefix that `intval` reads is a prefix of the input, all digits, followed by a non-digit |
| PhpArrays.SkipSpaces | includes/class-wpcli.php:224 | the leading whitespace `intval` skips is removed, and what remains is a suffix that starts with a non-space |
| PhpArrays.IntvalOfDigits | includes/class-wpcli.php:224 | `intval` of a string of digits is its decimal value |
| PhpArrays.LeadingDigitsOfDigits | includes/class-wpcli.php:224 | a string of digits is its own digit prefix |
| PhpArrays.Split | includes/class-wpcli.php:224 | `explode` yields at least one piece and no piece contains the separator |
| PhpArrays.JoinSplit | includes/class-media-access.php:145 | joining the pieces of `explode` with the separator gives back the original string |
| PhpArrays.ListIds | includes/class-media-access.php:145 | a comma list yields one integer per piece |
| PhpArrays.Lower | includes/class-wpcli.php:296 | `strtolower` maps A-Z to a-z and leaves every other character alone |
| PhpArrays.ToLower | includes/class-wpcli.php:296 | `strtolower` keeps the length and lowers each character in place |
| PhpArrays.IntvalAll | includes/class-access-templates.php:231 | `array_map('intval', …)` gives one integer per item, each the `intval` of that item |
| PhpArrays.IntvalAllMembers | includes/class-user-meta-handler.php:47 | a value is in `array_map('intval', …)` iff it is the `intval` of some item |
| PhpArrays.MapIntval | includes/class-media-access.php:163 | `array_map('intval', …)` on strings gives one integer per string |
| PhpArrays.LookupIndex | includes/class-access-templates.php:99-151 | a key of a string-keyed array has a value iff some entry carries that key |
| PhpArrays.LookupFirst | includes/class-access-templates.php:99-151 | the value of a key is the value of its first entry |
| PhpArrays.Put | includes/class-export-import.php:127 | assigning `$a[k] = v` makes k read v, leaves every other key as it was, overwrites in place an existing key and appends a new one |
| PhpArrays.PutDistinct | includes/class-export-import.php:127 | assigning a key keeps the keys of an array distinct |
| PhpArrays.LookupAppend | includes/class-export-import.php:127 | appending an entry changes only the reading of a key that was not there before |
| Wp.LoginOf | includes/class-post-access.php:74 | the login of a known user, else "Unknown" |
| Wp.TitleOf | includes/class-post-access.php:76 | the title of a known post, else "Unknown" |
| Wp.Query.SetPostIn | includes/class-access-filter.php:59-63 | `$query->set('post__in', ids)` stores exactly ids |
| UserMeta.ReadIds | includes/class-user-meta-handler.php:22-25 | a stored list reads back as itself; a missing or non-array value reads as the empty list |
| UserMeta.ContentKey | includes/class-user-meta-handler.php:13-14 | post type page reads the page key, post reads the post key, every other type its own key |
| UserMeta.GrantStore.SetAllowedPages | includes/class-user-meta-handler.php:45-50 | stores the `intval` of each item without zeros; afterwards a value is a granted page iff it is non-zero and the `intval` of some item; every user's posts and the schedules are unchanged |
| UserMeta.GrantStore.SetAllowedPosts | includes/class-user-meta-handler.php:59-63 | stores the `intval` of each item without zeros; afterwards a value is a granted post iff it is non-zero and the `intval` of some item; every user's pages and the schedules are unchanged |
| UserMeta.GrantStore.SetAllowedContent | includes/class-wpcli.php:254-256 | page and post go through their own setters (`intval`, then zeros dropped); any other type stores the `intval` of each item under its own key |
| UserMeta.GrantStore.SetAllowedMedia | includes/class-export-import.php:187-189 | stores the `intval` of each media item; nothing else changes |
| UserMeta.GrantStore.SetAllowedTerms | includes/class-export-import.php:215-217 | stores the `intval` of each of a taxonomy's term items; nothing else changes |
| UserMeta.GrantStore.SetSchedule | includes/class-export-import.php:192-198 | stores the user's schedule; the grants are unchanged |
| UserMeta.GrantStore.SetGrant | includes/class-wpcli.php:231-260 | storing a grant writes exactly that grant's key with the list its setter stores |
| UserMeta.GrantStore.ClearUserAccess | includes/class-user-meta-handler.php:70-73 | deletes the user's page and post keys; both then read back empty; nothing else changes |
| UserMeta.SetThenGet | test-restricted-pages-access.php:37-49 | after the page or post setter stores a list, a value reads back iff it is non-zero and the `intval` of some submitted item |
| UserMeta.WriteIsolated | includes/class-user-meta-handler.php:45-63 | a write to one user's key leaves every other user and key reading as before |
| UserMeta.StoredListHasNoZero | includes/class-user-meta-handler.php:47-48 | a stored page or post list never holds 0, and negative IDs survive the filter |
| UserMeta.SetIdempotent | includes/class-user-meta-handler.php:47-48 | storing the filtered list again stores the same list |
| Settings.AsList | includes/class-settings.php:194-197 | a list setting reads as its items; any other value reads as no items |
| Settings.GetSettings | includes/class-settings.php:40-43 | every stored key keeps its stored value, and every default key that is not stored gets its default |
| Settings.GetPrecedence | includes/class-settings.php:52-58 | a set stored value wins; else a known key absent from the stored option reads its built-in default; else the caller's non-null default; else null |
| Settings.GetDefaultsWhenEmpty | includes/class-settings.php:23-33 | with nothing stored, every known key reads its built-in default |
| Settings.MapKeys | includes/class-settings.php:81-96 | `array_map('sanitize_key', …)` sanitises every item and keeps the length |
| Settings.SanitizeSettings | includes/class-settings.php:77-110 | the saved settings have exactly the default keys; each flag is true iff its input is set and non-empty; each list setting is the sanitised input list when one is given, else its default |
| Settings.SanitizeEmptyInput | includes/class-settings.php:77-110 | saving an empty form restricts editors only, enables page and post, no taxonomy, and turns every flag off |
| Settings.GetAfterSave | includes/class-settings.php:52-69 | after a save, `get` returns the sanitised value of every known key |
| Settings.SettingsOption.Save | includes/class-settings.php:66-69 | `save_settings` stores the sanitised input |
| Settings.OnlyEditorsByDefault | includes/class-settings.php:194-197 | with nothing stored, exactly the editor role is restricted |
| Settings.IsCurrentUserRestricted | includes/class-settings.php:204-224 | a user is restricted iff they cannot manage options, exist, and hold a restricted role |
| Settings.ShouldFilterUser | includes/class-media-access.php:39-57 | filtering applies iff the user cannot manage options and is restricted |
| Settings.IsPostTypeEnabled | includes/class-settings.php:232-260 | a post type is enabled iff it is listed, or it is a WooCommerce or Elementor type whose integration flag is true |
| Settings.DefaultEnabledTypes | includes/class-settings.php:23-33 | with nothing stored, exactly page and post are enabled |
| Settings.EnabledCases | includes/class-settings.php:232-291 | being enabled is the same as being listed, or being one of the five integration types with its flag set |
| Settings.AllEnabledPostTypes | includes/class-settings.php:267-291 | the enabled-type list is duplicate-free and holds exactly the types `is_post_type_enabled` accepts |
| AccessFilter.EffectiveType | includes/class-access-filter.php:43-46 | an empty post type counts as post; any other name is kept |
| AccessFilter.PostsQueryConstraintSpec | includes/class-access-filter.php:24-65 | the list query is constrained iff it is the main admin query of a non-administrator for a single page or post type; the constraint is the granted pages or posts, or `[0]` when there are none |
| AccessFilter.PostsQueryOnlyGranted | test-restricted-pages-access.php:82-85 | a constrained query lists only granted pages or posts, or the sentinel 0, and is never empty |
| AccessFilter.EmptyTypeIsPost | includes/class-access-filter.php:43-46 | a query with an empty post type is filtered like a post query |
| AccessFilter.FilterPostsQuery | includes/class-access-filter.php:24-65 | `post__in` becomes the constraint when one applies; otherwise the query is left as it was |
| AccessFilter.FilterDropdownPages | includes/class-access-filter.php:70-82 | administrators get the arguments unchanged; anyone else gets `include` set to the granted pages, or `[0]` when none; other arguments are kept |
| PostAccess.Take | includes/class-post-access.php:108-110 | `array_slice(…, 0, n)` keeps a prefix of at most n entries |
| PostAccess.PushCapped | includes/class-post-access.php:105-110 | the new entry goes first, followed by the newest 49 older entries; the log never exceeds 50 |
| PostAccess.AccessLog.Record | includes/class-post-access.php:91-112 | recording stores the capped log with the new entry at its head |
| PostAccess.TakeAppendTake | includes/class-post-access.php:108-110 | capping before and after prepending gives the same log as capping once |
| PostAccess.RecordAllKeepsNewest | includes/class-post-access.php:105-110 | after any sequence of denials the log is the newest 50 entries, newest first; a stored log longer than 50 is trimmed by the first denial |
| PostAccess.DeniedOnlyUngrantedPagesAndPosts | includes/class-post-access.php:38-55 | a page is refused iff it is not granted, a post likewise, and any other post type is never refused |
| PostAccess.CheckPostAccess | includes/class-post-access.php:21-64 | the edit screen is forbidden when the check denies and proceeds otherwise (never reported as expired); a denial, and only a denial, logs the user, post and title |
| RestFilter.FilterRestQuery | includes/class-rest-api-filter.php:69-106 | an unfiltered query is unchanged; a filtered one gets a non-empty `post__in` of allowed IDs or 0: `[0]` when nothing is allowed, the allowed list when none was asked for, else the requested IDs that are allowed |
| RestFilter.FilterRestResponse | includes/class-rest-api-filter.php:116-144 | a single item is refused iff the user is restricted and logged in, its type is enabled and its ID is not allowed; the refusal is `rpa_forbidden` with status 403 |
| RestFilter.QueryAndResponseAgree | includes/class-rest-api-filter.php:69-144 | every real ID the filtered collection query can return is an item the single-item filter lets through |
| RestFilter.TaxonomyIdsMembers | includes/class-rest-api-filter.php:185-226 | an ID comes from the taxonomies iff one enabled taxonomy contributes it |
| RestFilter.IdsFromAllowedTaxonomies | includes/class-rest-api-filter.php:185-226 | the result is duplicate-free and is `array_unique` of the contributions of the enabled taxonomies, in order |
| RestFilter.AllowedIdsForType | includes/class-rest-api-filter.php:153-176 | the allowed IDs are duplicate-free and hold exactly the type's direct grant plus the IDs of every enabled taxonomy's granted terms |
| ContentScanner.IndexFrom | includes/class-media-access.php:143 | the search stops at the first occurrence of the character, or at the end |
| ContentScanner.ImageBlockAt | includes/class-media-access.php:138 | a match starts with `wp:image` at that position, lies inside the content, captures digits, and its capture is the slice of the content it reports |
| ContentScanner.GalleryBlockAt | includes/class-media-access.php:143 | a match starts with `wp:gallery` at that position, lies inside the content, and its capture is the slice it reports |
| ContentScanner.GalleryShortcodeAt | includes/class-media-access.php:151 | a match starts with `[gallery` at that position, lies inside the content, and its capture is the slice it reports |
| ContentScanner.ImageClassAt | includes/class-media-access.php:159 | a match starts with `class="` at that position, lies inside the content, captures digits, and its capture is the slice it reports |
| ContentScanner.MatchAt | includes/class-media-access.php:138-160 | each of the four patterns gives a match that starts with its literal prefix and whose capture is a slice of the content inside the match; the two image patterns capture digits |
| ContentScanner.ImageBlockShape | includes/class-media-access.php:138 | an image-block match is `wp:image`, a non-empty run of whitespace, `{"id":`, and the longest run of digits, which it captures |
| ContentScanner.GalleryBlockShape | includes/class-media-access.php:143 | a gallery-block match is `wp:gallery`, characters other than a newline, `"ids":[`, the captured list and a closing `]` |
| ContentScanner.GalleryShortcodeShape | includes/class-media-access.php:151 | a shortcode match is `[gallery`, characters other than `]`, `ids=`, an optional quote, and the captured list |
| ContentScanner.ImageClassShape | includes/class-media-access.php:159 | a class match is `class="`, characters other than a quote, `wp-image-`, the longest run of digits, which it captures, and the closing quote |
| ContentScanner.ScanSound | includes/class-media-access.php:138-160 | every capture `preg_match_all` returns comes from a match at some position of the content |
| ContentScanner.ImageBlockStartsWithW | includes/class-media-access.php:138 | an image-block match starts with w |
| ContentScanner.ImageBlocksDisjoint | includes/class-media-access.php:138 | two image-block matches do not overlap |
| ContentScanner.ImageBlockFound | includes/class-media-access.php:138-139 | every image block in the content is found by the scan: the scan misses no match |
| MediaAccess.MediaRestrictionSwitch | includes/class-media-access.php:39-57 | media restriction is on by default and, after a save, on iff its box was ticked |
| MediaAccess.ImagesFromContent | includes/class-media-access.php:128-164 | a missing post has no images; otherwise the result is the four patterns' IDs in order |
| MediaAccess.SplitWithoutSep | includes/class-media-access.php:145 | a capture without a comma is a single ID |
| MediaAccess.CaptureIdFromMatch | includes/class-media-access.php:143-154 | every ID from a list capture comes from a match in the content |
| MediaAccess.ListCapturesSound | includes/class-media-access.php:143-154 | every ID of the gallery patterns comes from a match in the content |
| MediaAccess.DigitCaptureIdSound | includes/class-media-access.php:138-160 | every ID of the image patterns comes from a match in the content |
| MediaAccess.ContentImageIdsSound | includes/class-media-access.php:128-164 | every image ID taken from a post comes from that post's content |
| MediaAccess.AppendThumbnails | includes/class-media-access.php:96-101 | the loop appends each granted item's thumbnail in order |
| MediaAccess.AppendContentImages | includes/class-media-access.php:103-107 | the loop appends each granted item's content images in order |
| MediaAccess.TypeMedia | includes/class-media-access.php:81-108 | one enabled type contributes its attached media, thumbnails and content images, or nothing when nothing is granted |
| MediaAccess.AllowedMediaIds | includes/class-media-access.php:65-120 | the result is the candidates (own uploads, per-type media, assigned media) after `array_unique` and `array_filter` |
| MediaAccess.AllowedMediaShape | includes/class-media-access.php:116-117 | the allowed media are duplicate-free, hold no 0, and hold exactly the non-zero candidates |
| MediaAccess.ContentMediaMembers | includes/class-media-access.php:84-108 | an ID comes from a type iff something is granted and it is attached to, the thumbnail of, or in the content of a granted item |
| MediaAccess.AllowedMediaIsUnion | includes/class-media-access.php:65-120 | a non-zero ID is allowed iff it is an own upload, comes from an enabled type, or is assigned media |
| MediaAccess.FilterAttachmentArgs | includes/class-media-access.php:172-194 | the media query's `post__in` becomes the listing constraint when the user is filtered and is otherwise unchanged |
| MediaAccess.FilterMediaListView | includes/class-media-access.php:201-231 | the list view on upload.php is constrained for a filtered user's main admin query; any other query is unchanged |
| AccessTemplates.SanitizeTemplateContent | includes/class-access-templates.php:221-237 | the loop builds the sanitised content |
| AccessTemplates.SanitizedEntriesShape | includes/class-access-templates.php:221-237 | a key is kept iff some entry with that sanitised key holds an array; no kept list holds 0 |
| AccessTemplates.SanitizedContentShape | includes/class-access-templates.php:221-237 | content that is not an array sanitises to nothing; otherwise as for the entries |
| AccessTemplates.TemplateIdForShape | includes/class-access-templates.php:48-50 | an empty ID becomes `tpl_` followed by the UUID; any other ID is kept |
| AccessTemplates.SavedTemplateStamps | includes/class-access-templates.php:52-60 | a saved template carries its ID, the save time as modified, the first save time as created, and content without zeros |
| AccessTemplates.TemplateStore.GetTemplate | includes/class-access-templates.php:33-36 | a template is found iff its ID is stored, and it is the stored one |
| AccessTemplates.TemplateStore.SaveTemplate | includes/class-access-templates.php:45-64 | saving stores the sanitised template under its ID and returns that ID |
| AccessTemplates.TemplateStore.DeleteTemplate | includes/class-access-templates.php:72-82 | deleting succeeds iff the ID is stored, and then removes exactly that template |
| AccessTemplates.TemplateStore.ApplyToUser | includes/class-access-templates.php:92-156 | applying succeeds iff the template exists, and then writes the applied grants; otherwise nothing changes |
| AccessTemplates.TemplateStore.CreateFromUser | includes/class-access-templates.php:166-213 | a new `tpl_` template is saved, holding the user's non-empty grants |
| AccessTemplates.TemplateStore.GetTemplateSummary | includes/class-access-templates.php:245-286 | a missing template has an empty summary; otherwise it is the counts of its content |
| AccessTemplates.TemplateStore.CountTypes | includes/class-access-templates.php:264-272 | the loop over the content sets, for each custom-type key with a label, that label to the length of its list, as the type-count specification does over the whole content |
| AccessTemplates.TemplateStore.CountTaxonomies | includes/class-access-templates.php:274-283 | the loop over the content sets, for each tax_ key whose taxonomy has a label, that label to the length of its list, as the taxonomy-count specification does over the whole content |
| AccessTemplates.ApplyFrame | includes/class-access-templates.php:92-156 | applying a template changes only keys of the target user that the template may write |
| AccessTemplates.ApplyTypesFrame | includes/class-access-templates.php:119-131 | the custom-type step writes only the listed types of the user |
| AccessTemplates.ApplyTaxonomiesFrame | includes/class-access-templates.php:134-144 | the taxonomy step writes only the listed taxonomies of the user |
| AccessTemplates.ApplyKeyFrame | includes/class-access-templates.php:100-153 | one key's step writes only that key |
| AccessTemplates.PagePostStep | includes/class-access-templates.php:100-116 | the page and post steps store the template's list without zeros, merged with the old list in merge mode, or leave the key alone |
| AccessTemplates.LaterStepsKeepPagesAndPosts | includes/class-access-templates.php:118-153 | the type, taxonomy and media steps never touch pages or posts |
| AccessTemplates.WrittenIdsMembers | includes/class-access-templates.php:100-116 | a written page or post list holds exactly the non-zero template IDs, plus the old ones in merge mode |
| AccessTemplates.AppliedPagesAndPosts | includes/class-access-templates.php:92-156 | after applying, pages and posts hold exactly the non-zero template IDs (plus the old ones when merging), or are untouched when the template has none |
| AccessTemplates.ReplaceOverlay | includes/class-access-templates.php:92-156 | in replace mode, applying overlays fixed values on the meta, whatever was there before |
| AccessTemplates.ReplaceIdempotent | includes/class-access-templates.php:92-156 | applying in replace mode twice gives what applying once gives |
| AccessTemplates.CreatedTypesShape | includes/class-access-templates.php:181-191 | gathering custom types keeps keys distinct and lists non-empty, and does not alter page or post |
| AccessTemplates.CreatedTaxonomiesShape | includes/class-access-templates.php:193-200 | gathering taxonomies keeps keys distinct and lists non-empty, and does not alter page or post |
| AccessTemplates.UserContentShape | includes/class-access-templates.php:166-213 | the content taken from a user has distinct keys and non-empty lists, and holds the user's pages, posts and media exactly when they are non-empty |
| AccessTemplates.SanitizedPlain | includes/class-access-templates.php:221-237 | sanitising content that is already plain keeps each key's list with zeros removed |
| AccessTemplates.CopyThroughTemplate | includes/class-access-templates.php:92-213 | creating a template from one user and applying it in replace mode to another gives the second user the first user's pages and posts |
| AccessTemplates.CoreCountsAreCounts | includes/class-access-templates.php:254-262 | every core count is the size of one of the content's lists |
| AccessTemplates.CountOf | includes/class-access-templates.php:254-262 | a count exists iff the content has that key |
| AccessTemplates.CoreCountsKeys | includes/class-access-templates.php:254-262 | pages, posts and media count the page, post and media lists, and are absent when those are |
| AccessTemplates.TypeCountsKeep | includes/class-access-templates.php:264-272 | the custom-type counts leave alone any key that is not a type label |
| AccessTemplates.TaxonomyCountsKeep | includes/class-access-templates.php:274-283 | the taxonomy counts leave alone any key that is not a taxonomy label |
| AccessTemplates.SummaryKeepsCore | includes/class-access-templates.php:245-286 | a summary key that no label takes holds the core count |
| AccessTemplates.SummaryShape | includes/class-access-templates.php:245-286 | every number in a summary is the size of one of the template's lists; pages, posts and media count the matching lists unless a label takes their names |
| ExportImport.GenerateExportData | includes/class-export-import.php:97-140 | the export holds version, time, site, settings, templates and one entry per restricted user |
| ExportImport.ExportUserData | includes/class-export-import.php:111-134 | one user's entry is built from their grants |
| ExportImport.ExportTypesLookup | includes/class-export-import.php:121-128 | an exported custom type reads the user's list for that type; any other key is unchanged |
| ExportImport.ExportTaxonomiesLookup | includes/class-export-import.php:130-134 | adding the tax_ keys leaves every key that does not begin with tax_ as it was |
| ExportImport.ExportUserLookup | includes/class-export-import.php:111-134 | a non-taxonomy key of an entry reads a custom type's list when it is an exported type, and otherwise reads the fixed fields |
| ExportImport.ResolveUser | includes/class-export-import.php:163-174 | a user is found by login first, and by email only when the login is unknown |
| ExportImport.SaveAllStep | includes/class-export-import.php:155-159 | each imported template adds its template ID to the store |
| ExportImport.SavedIdsHas | includes/class-export-import.php:155-159 | every imported template's ID ends up in the store |
| ExportImport.SaveAllKeys | includes/class-export-import.php:155-159 | the store after importing holds exactly the old IDs plus the imported ones |
| ExportImport.ImportData | includes/class-export-import.php:148-223 | import returns true; settings are saved when given; templates are saved when given; every user entry is imported |
| ExportImport.ImportTemplates | includes/class-export-import.php:155-159 | each template is saved in order; an empty list changes nothing |
| ExportImport.ImportUserAccess | includes/class-export-import.php:162-219 | the users' entries are imported in order |
| ExportImport.ImportUserData | includes/class-export-import.php:176-218 | one user's entry is imported into the grant store: each ID list through its setter, which applies `intval` to every item |
| ExportImport.ImportTypesFrame | includes/class-export-import.php:201-209 | the custom-type step writes only that user's custom-type keys and no schedule |
| ExportImport.ImportTaxonomiesFrame | includes/class-export-import.php:212-218 | the taxonomy step writes only that user's term keys and no schedule |
| ExportImport.ImportFixedFrame | includes/class-export-import.php:177-198 | the fixed fields write only the keys the entry carries, and the schedule only when it carries one |
| ExportImport.ImportKeyFrame | includes/class-export-import.php:177-189 | one key's import writes only that key, and only when the entry has it |
| ExportImport.ImportUserFrame | includes/class-export-import.php:176-218 | importing a user writes only keys the entry carries for that user |
| ExportImport.ImportUserMetaFrame | includes/class-export-import.php:200-218 | the type and taxonomy steps leave the keys they do not touch as the fixed fields left them |
| ExportImport.ImportUserSchedules | includes/class-export-import.php:192-218 | only the fixed fields set schedules |
| ExportImport.ImportSkipsOthers | includes/class-export-import.php:163-174 | a user that no entry resolves to keeps every grant and schedule |
| ExportImport.FixedKeyLookup | includes/class-export-import.php:111-128 | the fixed fields of an entry read their base values when no type takes their names |
| ExportImport.ExportedFixedKeys | includes/class-export-import.php:111-128 | the exported entry carries the user's pages, posts, media and schedule |
| ExportImport.ImportedFixedKeys | includes/class-export-import.php:176-198 | importing an entry sets pages and posts to the `intval` of their items without zeros, media to the `intval` of its items, and the schedule |
| ExportImport.ExportImportRoundTrip | includes/class-export-import.php:97-223 | exporting a user and importing the entry restores their pages and posts (without zeros), their media and their schedule |
| WooCommerce.WcTypeEnabledAgrees | includes/integrations/class-woocommerce.php:78-84 | the integration's check uses the same flags as the settings, agrees with them, and is off by default |
| WooCommerce.FilterWcPostsQuery | includes/integrations/class-woocommerce.php:102-143 | a filtered WooCommerce list gets the listing constraint of its type; any other query is unchanged |
| WooCommerce.WcLogTitle | includes/integrations/class-woocommerce.php:312 | the log title is `[type] ` followed by the post title |
| WooCommerce.CheckWcPostAccess | includes/integrations/class-woocommerce.php:148-195 | expired access is refused as expired; an ungranted item is forbidden and logged; nothing else is logged |
| WooCommerce.TypeFromFilterName | includes/integrations/class-woocommerce.php:210-216 | the REST filter's name picks shop_order, then shop_coupon, else product; the result is always a WooCommerce type |
| WooCommerce.WcIncludeConstraint | includes/integrations/class-woocommerce.php:218-235 | a constraint applies iff the user is filtered and the type is enabled; it is non-empty and holds only 0 or allowed IDs of an active user; for an active user it holds every allowed ID, and for an expired one it is `[0]` |
| WooCommerce.FilterWcRestQuery | includes/integrations/class-woocommerce.php:204-238 | `include` becomes the constraint when one applies; `post__in` is kept |
| WooCommerce.FilterWcOrderQuery | includes/integrations/class-woocommerce.php:246-271 | HPOS order queries get the shop_order constraint in `include` |
| WooCommerce.OrderFiltersAgree | includes/integrations/class-woocommerce.php:204-271 | the REST and the HPOS order filters constrain orders the same way |
| WooCommerce.ListAndEditScreenAgree | includes/integrations/class-woocommerce.php:102-195 | a real ID listed for a filtered user is one whose edit screen is not refused |
| Elementor.ElementorTypeEnabledAgrees | includes/integrations/class-elementor.php:75-81 | the integration's check uses the same flags as the settings, agrees with them, and is off by default |
| Elementor.FilterElementorPostsQuery | includes/integrations/class-elementor.php:99-140 | a filtered Elementor list gets the listing constraint of its type; any other query is unchanged |
| Elementor.CheckElementorPostAccess | includes/integrations/class-elementor.php:145-192 | expired access is refused as expired; an ungranted item is forbidden and logged with the `[Elementor]` prefix; nothing else is logged |
| Elementor.KeepAllowed | includes/integrations/class-elementor.php:217-222 | the finder keeps exactly the items whose ID is allowed |
| Elementor.KeepAllowedIdempotent | includes/integrations/class-elementor.php:217-222 | filtering the finder twice gives what filtering once gives |
| Elementor.VisibleTemplates | includes/integrations/class-elementor.php:206-225 | an expired user or one with no grants sees no templates; an active user sees exactly the items whose ID is allowed |
| Elementor.FilterElementorFinder | includes/integrations/class-elementor.php:200-229 | only the templates category changes, and only for a filtered user |
| Elementor.FilterTemplateAccess | includes/integrations/class-elementor.php:237-270 | a template is refused iff the user is filtered and the template is of an enabled type and not allowed or the access has expired; an allowed one is returned unchanged |
| Elementor.FinderAndEditorAgree | includes/integrations/class-elementor.php:200-270 | a template the finder shows is one the editor lets through |
| Elementor.ExpiredSeesNoTemplate | includes/integrations/class-elementor.php:200-270 | with expired access the finder shows no templates and the editor refuses every guarded template as expired |
| Cli.ParseIds | includes/class-wpcli.php:224-225 | the parsed IDs are exactly the non-zero values of the comma list |
| Cli.GetUser | includes/class-wpcli.php:654-659 | a numeric identifier looks the user up by ID, any other by login |
| Cli.GetUserByDigits | includes/class-wpcli.php:654-659 | a string of digits is a user ID |
| Cli.GetUserTrailingSpaces | includes/class-wpcli.php:654-659 | digits followed by whitespace are still a user ID, as `is_numeric` allows trailing whitespace |
| Cli.GetUserByLogin | includes/class-wpcli.php:654-659 | an identifier holding a lower-case letter a-z is a login |
| Cli.GrantFor | includes/class-wpcli.php:231-260 | page, post and media pick their own store; any other type picks its own key, and only when it is a listed, hence enabled, post type |
| Cli.Grant | includes/class-wpcli.php:217-265 | unknown user, no IDs and unknown type are errors that change nothing; the grant succeeds exactly when none of them applies, and then the IDs are merged into the grant and their count is reported |
| Cli.Revoke | includes/class-wpcli.php:287-356 | unknown user and unknown type are errors that change nothing; `all` empties the grant; otherwise the IDs are removed and their count is reported |
| Cli.GrantAdds | includes/class-wpcli.php:231-260 | after a grant the list holds the new IDs and the old ones (zeros dropped for pages and posts) |
| Cli.GrantIdempotent | includes/class-wpcli.php:231-260 | granting the same IDs twice stores what granting once stores |
| Cli.RevokeRemoves | includes/class-wpcli.php:303-347 | after a revoke the list holds exactly the old IDs that were not revoked |
| Cli.GrantThenRevoke | includes/class-wpcli.php:217-356 | granting then revoking the same IDs leaves exactly the old IDs that were not revoked |
| Cli.CopyAccessUsers | includes/class-wpcli.php:627-646 | copying needs two different existing users, with one error message for each failure |
| Cli.AccessStatus | includes/class-wpcli.php:56-63 | no dates is Active; with dates, Scheduled when access is active, else Expired/Inactive |

## Left out

- Hooks, constructors and the registration of filters are not modelled; each filter is a function or method of its inputs.
- The admin page, the dashboard widget and the JavaScript are not part of this model.
- Log entries leave out the IP address and the time, since both come from the environment.
- `error_log` output, WP-CLI success messages and `wp_die` texts are left out. Only the verdict and the log are modelled.
- The four content patterns are restated as scanners, one per pattern; PCRE in general is not modelled. Case-insensitive matching is modelled with `strtolower` on ASCII.
- `sanitize_key`, `sanitize_text_field` and `sanitize_textarea_field` are function parameters; their behaviour is not modelled.
- `intval` reads optional leading whitespace, an optional sign and decimal digits. Overflow, and other numeric forms (hex, exponents), are not modelled.
- `is_numeric` follows PHP 8: optional leading whitespace, an optional sign, digits, then optional trailing whitespace (space, tab, newline, carriage return, vertical tab, form feed). Decimals and exponents are not modelled.
- `is_user_access_active` and the dates behind it are a boolean parameter, because the clock is outside the model.
- `get_user_allowed_media`, `get_user_allowed_content`, `get_user_allowed_taxonomy_terms`, `get_user_access_schedule` and their setters are not part of the visible handler. They are modelled as further keys of the same store, and their setters are assumed to apply `intval` to each item like the page and post setters.
- UserMeta.ContentKey: that `get_user_allowed_content` reads the page and post keys for page and post is an assumption about a method outside the visible handler.
- UserMeta.GrantStore.SetAllowedContent: that a custom type's setter applies `intval` to each item and stores under the type's own key is an assumption about a method outside the visible handler.
- ContentScanner.GalleryBlockShape: the lazy `.*?` of the gallery-block pattern is modelled by taking the first place where `"ids":[` and a list fit, but that this is the earliest such place is not stated as a lemma.
- Cli.CopyAccessUsers: `copy_user_access` itself is not part of the visible handler, so only the choice of source and target users is modelled.
- `array_filter` keeps the array keys of the survivors; the model renumbers the list, which changes no membership test the core makes.
- A template option or access log that is not an array is read as empty.
- A non-list value in an import entry is skipped rather than passed to the setter. The source passes it on: under PHP 8 the setter's `array_map` raises a TypeError on a non-array, which ends the import there, after the users before it were written; the model's skip is a deliberate difference.
- Cli.AccessStatus: only the Status column of `list-users` is modelled; the counts and other columns are plain reads.
- The other WP-CLI commands (`user-access`, `apply-template`, `list-templates`, `export`, `import`, `schedule`) are thin wrappers around modelled operations and are not modelled themselves.
- ExportImport.ExportImportRoundTrip: requires that no enabled post type is named pages, posts, media or schedule, since such a type overwrites the fixed field of the same name in the export.
- AccessTemplates.SummaryShape: states the pages, posts and media counts only when no post type or taxonomy label takes those names, since a label can overwrite them.
- `get_post`, `get_users`, `get_user_by`, `get_posts` and the taxonomy registry are maps or function parameters.
