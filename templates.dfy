/**
 * Access templates: named grant sets kept in the rpa_templates option,
 * which can be applied to users (replacing or merging their grants) and
 * created from a user's current grants.
 *
 * A template's content maps a key to an ID list: "page", "post", "media",
 * a custom post type's name, or "tax_" followed by a taxonomy name.
 */
module AccessTemplates {
  import opened PhpArrays
  import opened Settings
  import UserMeta

  /** One value of submitted template content: an array of scalars, or anything else. */
  datatype RawValue = IdArray(items: seq<Scalar>) | NotArray

  /** Submitted template content: an array of entries, or a value that is not an array. */
  datatype RawContent = RawEntries(entries: seq<(string, RawValue)>) | RawOther

  /** The data save_template receives; absent entries are None. */
  datatype TemplateInput = TemplateInput(name: Option<string>, description: Option<string>,
                                         content: Option<RawContent>)

  /** Sanitised content: key to ID list, in insertion order. */
  type Content = Assoc<seq<int>>

  datatype Template = Template(id: string, name: string, description: string,
                               created: string, modified: string, content: Content)

  // ---------------------------------------------------------------------
  // sanitize_template_content

  /** The sanitised form of the first n entries. */
  function SanitizedEntries(entries: seq<(string, RawValue)>, sanitizeKey: string -> string, n: nat): Content
    requires n <= |entries|
  {
    if n == 0 then []
    else
      var prev := SanitizedEntries(entries, sanitizeKey, n - 1);
      var (key, value) := entries[n - 1];
      if value.IdArray? then Put(prev, sanitizeKey(key), DropZeros(IntvalAll(value.items))) else prev
  }

  /** What sanitize_template_content returns. */
  function SanitizedContent(content: RawContent, sanitizeKey: string -> string): Content {
    if content.RawOther? then [] else SanitizedEntries(content.entries, sanitizeKey, |content.entries|)
  }

  /** sanitize_template_content */
  method SanitizeTemplateContent(content: RawContent, sanitizeKey: string -> string) returns (sanitized: Content)
    ensures sanitized == SanitizedContent(content, sanitizeKey)
  {
    if content.RawOther? {
      return [];
    }
    sanitized := [];
    var entries := content.entries;
    for i := 0 to |entries|
      invariant sanitized == SanitizedEntries(entries, sanitizeKey, i)
    {
      var (key, ids) := entries[i];
      var k := sanitizeKey(key);
      if ids.IdArray? {
        sanitized := Put(sanitized, k, DropZeros(IntvalAll(ids.items)));
      }
    }
  }

  /** No ID list of sanitised content holds 0. */
  ghost predicate NoZeroLists(c: Content) {
    forall k, ids :: Lookup(c, k) == Some(ids) ==> 0 !in ids
  }

  /**
   * A key is in the sanitised content iff it is the sanitised key of an
   * array entry, and no list holds 0.
   */
  lemma {:induction false} SanitizedEntriesShape(entries: seq<(string, RawValue)>, sanitizeKey: string -> string,
                                                 n: nat, k: string)
    requires n <= |entries|
    ensures Lookup(SanitizedEntries(entries, sanitizeKey, n), k).Some? <==>
      exists i :: 0 <= i < n && entries[i].1.IdArray? && sanitizeKey(entries[i].0) == k
    ensures NoZeroLists(SanitizedEntries(entries, sanitizeKey, n))
  {
    if n > 0 {
      SanitizedEntriesShape(entries, sanitizeKey, n - 1, k);
    }
  }

  /** Content that is not an array sanitises to nothing; otherwise keys come from array entries and no list holds 0. */
  lemma SanitizedContentShape(content: RawContent, sanitizeKey: string -> string, k: string)
    ensures content.RawOther? ==> SanitizedContent(content, sanitizeKey) == []
    ensures content.RawEntries? ==>
      (Lookup(SanitizedContent(content, sanitizeKey), k).Some? <==>
       exists i :: 0 <= i < |content.entries| && content.entries[i].1.IdArray? &&
                   sanitizeKey(content.entries[i].0) == k)
    ensures NoZeroLists(SanitizedContent(content, sanitizeKey))
  {
    if content.RawEntries? {
      SanitizedEntriesShape(content.entries, sanitizeKey, |content.entries|, k);
    }
  }

  // ---------------------------------------------------------------------
  // The template store

  /** empty($template_id) for a string: "" and "0". */
  predicate EmptyId(id: string) { id == "" || id == "0" }

  /** The ID save_template stores under: a fresh tpl_ ID when none is given. */
  function TemplateIdFor(templateId: string, uuid: string): string {
    if EmptyId(templateId) then "tpl_" + uuid else templateId
  }

  /** A given ID is kept; an empty one is replaced by tpl_ followed by the fresh uuid. */
  lemma TemplateIdForShape(templateId: string, uuid: string)
    ensures var r := TemplateIdFor(templateId, uuid);
      && (EmptyId(templateId) ==> StartsWith(r, "tpl_") && r[4..] == uuid)
      && (!EmptyId(templateId) ==> r == templateId)
  {
    var r := TemplateIdFor(templateId, uuid);
    if EmptyId(templateId) {
      assert r[..4] == "tpl_" && r[4..] == uuid;
    }
  }

  /** The template save_template writes under id. */
  function SavedTemplate(templates: map<string, Template>, id: string, data: TemplateInput, now: string,
                         sanitizeText: string -> string, sanitizeTextarea: string -> string,
                         sanitizeKey: string -> string): Template
  {
    Template(id,
             sanitizeText(if data.name.Some? then data.name.value else ""),
             sanitizeTextarea(if data.description.Some? then data.description.value else ""),
             if id in templates then templates[id].created else now,
             now,
             SanitizedContent(if data.content.Some? then data.content.value else RawEntries([]), sanitizeKey))
  }

  /** Re-saving keeps the creation time; every save stamps the modification time and stores clean lists. */
  lemma SavedTemplateStamps(templates: map<string, Template>, id: string, data: TemplateInput, now: string,
                            sanitizeText: string -> string, sanitizeTextarea: string -> string,
                            sanitizeKey: string -> string)
    ensures var t := SavedTemplate(templates, id, data, now, sanitizeText, sanitizeTextarea, sanitizeKey);
      && t.id == id && t.modified == now
      && (id in templates ==> t.created == templates[id].created)
      && (id !in templates ==> t.created == now)
      && (data.content.None? ==> t.content == [])
      && NoZeroLists(t.content)
  {
    SanitizedContentShape(if data.content.Some? then data.content.value else RawEntries([]), sanitizeKey, "");
  }

  /** The rpa_templates option. None stands for a stored value that is not an array. */
  class TemplateStore {
    var raw: Option<map<string, Template>>

    constructor ()
      ensures raw == None
    {
      raw := None;
    }

    /** get_templates: a stored value that is not an array reads as no templates. */
    function Templates(): map<string, Template>
      reads this
    {
      if raw.Some? then raw.value else map[]
    }

    /** get_template: null (None) for an unknown ID. */
    function GetTemplate(templateId: string): (r: Option<Template>)
      reads this
      ensures r.Some? <==> templateId in Templates()
      ensures r.Some? ==> r.value == Templates()[templateId]
    {
      if templateId in Templates() then Some(Templates()[templateId]) else None
    }

    /** save_template; uuid and now stand for wp_generate_uuid4() and current_time('mysql'). */
    method SaveTemplate(templateId: string, data: TemplateInput, uuid: string, now: string,
                        sanitizeText: string -> string, sanitizeTextarea: string -> string,
                        sanitizeKey: string -> string) returns (id: string)
      modifies this
      ensures id == TemplateIdFor(templateId, uuid)
      ensures raw == Some(old(Templates())[id := SavedTemplate(old(Templates()), id, data, now,
                                                               sanitizeText, sanitizeTextarea, sanitizeKey)])
    {
      var templates := Templates();
      id := templateId;
      if EmptyId(id) {
        id := "tpl_" + uuid;
      }
      var created := if id in templates then templates[id].created else now;
      var input := if data.content.Some? then data.content.value else RawEntries([]);
      var content := SanitizeTemplateContent(input, sanitizeKey);
      templates := templates[id := Template(id,
                                            sanitizeText(if data.name.Some? then data.name.value else ""),
                                            sanitizeTextarea(if data.description.Some? then data.description.value else ""),
                                            created, now, content)];
      raw := Some(templates);
    }

    /** delete_template: true and the template removed when it exists, else false and no write. */
    method DeleteTemplate(templateId: string) returns (deleted: bool)
      modifies this
      ensures deleted <==> templateId in old(Templates())
      ensures deleted ==> raw == Some(old(Templates()) - {templateId})
      ensures !deleted ==> raw == old(raw)
    {
      var templates := Templates();
      if templateId in templates {
        templates := templates - {templateId};
        raw := Some(templates);
        return true;
      }
      return false;
    }

    /**
     * apply_to_user: false, with no write, for an unknown template; otherwise
     * the template's lists are written to the user's grants (merged with the
     * existing ones when merge is set) and true is returned.
     */
    method ApplyToUser(templateId: string, userId: int, merge: bool, stored: Options,
                       grants: UserMeta.GrantStore) returns (applied: bool)
      modifies grants
      ensures applied <==> templateId in Templates()
      ensures !applied ==> grants.meta == old(grants.meta)
      ensures applied ==> grants.meta == Applied(old(grants.meta), userId, Templates()[templateId].content, merge, stored)
      ensures grants.schedules == old(grants.schedules)
    {
      var template := GetTemplate(templateId);
      if template.None? {
        return false;
      }
      var content := template.value.content;
      content := ApplyEntry(grants, userId, content, "page", UserMeta.Pages, merge);
      content := ApplyEntry(grants, userId, content, "post", UserMeta.Posts, merge);
      var types := AsList(Get(stored, EnabledPostTypes, List(["page", "post"])));
      content := ApplyTypesLoop(grants, userId, content, types, merge);
      var taxonomies := AsList(Get(stored, EnabledTaxonomies, List([])));
      content := ApplyTaxonomiesLoop(grants, userId, content, taxonomies, merge);
      content := ApplyEntry(grants, userId, content, "media", UserMeta.Media, merge);
      return true;
    }

    /** The custom post type loop of apply_to_user; page and post are skipped. */
    static method ApplyTypesLoop(grants: UserMeta.GrantStore, userId: int, content: Content, types: seq<string>,
                                 merge: bool) returns (updated: Content)
      modifies grants
      ensures ApplyState(grants.meta, updated) ==
        ApplyTypes(ApplyState(old(grants.meta), content), userId, types, merge, |types|)
      ensures grants.schedules == old(grants.schedules)
    {
      updated := content;
      for i := 0 to |types|
        invariant ApplyState(grants.meta, updated) ==
          ApplyTypes(ApplyState(old(grants.meta), content), userId, types, merge, i)
        invariant grants.schedules == old(grants.schedules)
      {
        var postType := types[i];
        if postType in ["page", "post"] {
          continue;
        }
        updated := ApplyEntry(grants, userId, updated, postType, UserMeta.Content(postType), merge);
      }
    }

    /** The taxonomy loop of apply_to_user, each taxonomy under its tax_ key. */
    static method ApplyTaxonomiesLoop(grants: UserMeta.GrantStore, userId: int, content: Content,
                                      taxonomies: seq<string>, merge: bool) returns (updated: Content)
      modifies grants
      ensures ApplyState(grants.meta, updated) ==
        ApplyTaxonomies(ApplyState(old(grants.meta), content), userId, taxonomies, merge, |taxonomies|)
      ensures grants.schedules == old(grants.schedules)
    {
      updated := content;
      for i := 0 to |taxonomies|
        invariant ApplyState(grants.meta, updated) ==
          ApplyTaxonomies(ApplyState(old(grants.meta), content), userId, taxonomies, merge, i)
        invariant grants.schedules == old(grants.schedules)
      {
        var taxonomy := taxonomies[i];
        updated := ApplyEntry(grants, userId, updated, "tax_" + taxonomy, UserMeta.Terms(taxonomy), merge);
      }
    }

    /**
     * One step of apply_to_user: when the content has key, merge if asked,
     * record the merged list in the content, and store it with the grant's setter.
     */
    static method ApplyEntry(grants: UserMeta.GrantStore, userId: int, content: Content, key: string,
                             grant: UserMeta.GrantKey, merge: bool) returns (updated: Content)
      requires grant.Content? ==> grant.postType !in ["page", "post"]
      modifies grants
      ensures ApplyState(grants.meta, updated) ==
        ApplyKey(ApplyState(old(grants.meta), content), userId, key, grant, merge)
      ensures grants.schedules == old(grants.schedules)
    {
      updated := content;
      var entry := Lookup(content, key);
      if entry.None? {
        return;
      }
      var ids := entry.value;
      if merge {
        var existing := UserMeta.ReadIds(grants.meta, userId, grant);
        ids := Union(existing, ids);
        updated := Put(content, key, ids);
      }
      grants.SetGrant(userId, grant, ids);
    }

    /**
     * create_from_user: gathers the user's non-empty grants into template
     * content and saves it as a new template; returns the new ID.
     */
    method CreateFromUser(grants: UserMeta.GrantStore, userId: int, name: string, description: string,
                          stored: Options, uuid: string, now: string, sanitizeText: string -> string,
                          sanitizeTextarea: string -> string, sanitizeKey: string -> string) returns (id: string)
      modifies this
      ensures id == "tpl_" + uuid
      ensures raw == Some(old(Templates())[id := SavedTemplate(old(Templates()), id,
                                                               CreatedInput(name, description, UserContent(grants.meta, userId, stored)),
                                                               now, sanitizeText, sanitizeTextarea, sanitizeKey)])
    {
      var content: Content := [];
      var pages := grants.AllowedPages(userId);
      if pages != [] {
        content := Put(content, "page", pages);
      }
      var posts := grants.AllowedPosts(userId);
      if posts != [] {
        content := Put(content, "post", posts);
      }
      content := GatherTypes(grants, userId, stored, content);
      content := GatherTaxonomies(grants, userId, stored, content);
      var media := grants.AllowedMedia(userId);
      if media != [] {
        content := Put(content, "media", media);
      }
      id := SaveTemplate("", CreatedInput(name, description, content), uuid, now,
                         sanitizeText, sanitizeTextarea, sanitizeKey);
    }

    /** The custom post type part of create_from_user. */
    static method GatherTypes(grants: UserMeta.GrantStore, userId: int, stored: Options, base: Content)
      returns (content: Content)
      ensures content == CreatedTypes(grants.meta, userId, AsList(Get(stored, EnabledPostTypes, List(["page", "post"]))),
                                      base, |AsList(Get(stored, EnabledPostTypes, List(["page", "post"])))|)
    {
      var types := AsList(Get(stored, EnabledPostTypes, List(["page", "post"])));
      content := base;
      for i := 0 to |types|
        invariant content == CreatedTypes(grants.meta, userId, types, base, i)
      {
        var postType := types[i];
        if postType in ["page", "post"] {
          continue;
        }
        var ids := grants.AllowedContent(userId, postType);
        if ids != [] {
          content := Put(content, postType, ids);
        }
      }
    }

    /** The taxonomy part of create_from_user. */
    static method GatherTaxonomies(grants: UserMeta.GrantStore, userId: int, stored: Options, base: Content)
      returns (content: Content)
      ensures content == CreatedTaxonomies(grants.meta, userId, AsList(Get(stored, EnabledTaxonomies, List([]))),
                                           base, |AsList(Get(stored, EnabledTaxonomies, List([])))|)
    {
      var taxonomies := AsList(Get(stored, EnabledTaxonomies, List([])));
      content := base;
      for i := 0 to |taxonomies|
        invariant content == CreatedTaxonomies(grants.meta, userId, taxonomies, base, i)
      {
        var terms := grants.AllowedTerms(userId, taxonomies[i]);
        if terms != [] {
          content := Put(content, "tax_" + taxonomies[i], terms);
        }
      }
    }

    /** get_template_summary */
    method GetTemplateSummary(templateId: string, typeLabel: string -> Option<string>,
                              taxonomyLabel: string -> Option<string>) returns (summary: Assoc<int>)
      ensures GetTemplate(templateId).None? ==> summary == []
      ensures GetTemplate(templateId).Some? ==>
        summary == Summary(GetTemplate(templateId).value.content, typeLabel, taxonomyLabel)
    {
      var template := GetTemplate(templateId);
      if template.None? {
        return [];
      }
      var content := template.value.content;
      summary := CoreCounts(content);
      summary := CountTypes(content, summary, typeLabel);
      summary := CountTaxonomies(content, summary, taxonomyLabel);
    }

    /** The custom post type loop of get_template_summary. */
    static method CountTypes(content: Content, base: Assoc<int>, typeLabel: string -> Option<string>)
      returns (summary: Assoc<int>)
      ensures summary == TypeCounts(content, base, typeLabel, |content|)
    {
      summary := base;
      for i := 0 to |content|
        invariant summary == TypeCounts(content, base, typeLabel, i)
      {
        var (key, ids) := content[i];
        if key !in ["page", "post", "media"] && !StartsWith(key, "tax_") {
          var shown := typeLabel(key);
          if shown.Some? {
            summary := Put(summary, shown.value, |ids|);
          }
        }
      }
    }

    /** The taxonomy loop of get_template_summary. */
    static method CountTaxonomies(content: Content, base: Assoc<int>, taxonomyLabel: string -> Option<string>)
      returns (summary: Assoc<int>)
      ensures summary == TaxonomyCounts(content, base, taxonomyLabel, |content|)
    {
      summary := base;
      for i := 0 to |content|
        invariant summary == TaxonomyCounts(content, base, taxonomyLabel, i)
      {
        var (key, ids) := content[i];
        if StartsWith(key, "tax_") {
          var shown := taxonomyLabel(key[4..]);
          if shown.Some? {
            summary := Put(summary, shown.value, |ids|);
          }
        }
      }
    }
  }

  // ---------------------------------------------------------------------
  // apply_to_user

  /**
   * The state apply_to_user threads through its steps: the user meta, and
   * its local copy of the template content, whose entries a merge replaces
   * with the merged lists.
   */
  datatype ApplyState = ApplyState(meta: UserMeta.Meta, content: Content)

  /** One step: when the content has key, write it (merged with the user's current grant if merge) to grant. */
  function ApplyKey(st: ApplyState, userId: int, key: string, grant: UserMeta.GrantKey, merge: bool): ApplyState {
    var entry := Lookup(st.content, key);
    if entry.None? then st
    else if merge then
      var ids := Union(UserMeta.ReadIds(st.meta, userId, grant), entry.value);
      ApplyState(st.meta[(userId, grant) := UserMeta.IdList(UserMeta.StoredList(grant, ids))], Put(st.content, key, ids))
    else ApplyState(st.meta[(userId, grant) := UserMeta.IdList(UserMeta.StoredList(grant, entry.value))], st.content)
  }

  /** The custom post type steps for the first n enabled types; page and post are skipped. */
  function ApplyTypes(st: ApplyState, userId: int, types: seq<string>, merge: bool, n: nat): ApplyState
    requires n <= |types|
  {
    if n == 0 then st
    else
      var prev := ApplyTypes(st, userId, types, merge, n - 1);
      if types[n - 1] in ["page", "post"] then prev
      else ApplyKey(prev, userId, types[n - 1], UserMeta.Content(types[n - 1]), merge)
  }

  /** The taxonomy steps for the first n enabled taxonomies, each under its tax_ key. */
  function ApplyTaxonomies(st: ApplyState, userId: int, taxonomies: seq<string>, merge: bool, n: nat): ApplyState
    requires n <= |taxonomies|
  {
    if n == 0 then st
    else
      var prev := ApplyTaxonomies(st, userId, taxonomies, merge, n - 1);
      ApplyKey(prev, userId, "tax_" + taxonomies[n - 1], UserMeta.Terms(taxonomies[n - 1]), merge)
  }

  /** The user meta after apply_to_user: pages, posts, custom types, taxonomies, media, in that order. */
  function Applied(meta: UserMeta.Meta, userId: int, content: Content, merge: bool, stored: Options): UserMeta.Meta {
    var st1 := ApplyKey(ApplyState(meta, content), userId, "page", UserMeta.Pages, merge);
    var st2 := ApplyKey(st1, userId, "post", UserMeta.Posts, merge);
    var types := AsList(Get(stored, EnabledPostTypes, List(["page", "post"])));
    var st3 := ApplyTypes(st2, userId, types, merge, |types|);
    var taxonomies := AsList(Get(stored, EnabledTaxonomies, List([])));
    var st4 := ApplyTaxonomies(st3, userId, taxonomies, merge, |taxonomies|);
    ApplyKey(st4, userId, "media", UserMeta.Media, merge).meta
  }

  /** A grant apply_to_user may write for the user: pages, posts, media, an enabled custom type or an enabled taxonomy. */
  predicate MayWrite(grant: UserMeta.GrantKey, stored: Options) {
    match grant
    case Pages | Posts | Media => true
    case Content(t) => t in AsList(Get(stored, EnabledPostTypes, List(["page", "post"]))) && t !in ["page", "post"]
    case Terms(x) => x in AsList(Get(stored, EnabledTaxonomies, List([])))
  }

  lemma {:induction false} ApplyTypesFrame(st: ApplyState, userId: int, types: seq<string>, merge: bool, n: nat,
                                           key: (int, UserMeta.GrantKey))
    requires n <= |types|
    requires key.0 == userId && key.1.Content? ==> key.1.postType !in types || key.1.postType in ["page", "post"]
    ensures UserMeta.SameAt(ApplyTypes(st, userId, types, merge, n).meta, st.meta, key)
  {
    if n > 0 {
      ApplyTypesFrame(st, userId, types, merge, n - 1, key);
    }
  }

  lemma {:induction false} ApplyTaxonomiesFrame(st: ApplyState, userId: int, taxonomies: seq<string>, merge: bool,
                                                n: nat, key: (int, UserMeta.GrantKey))
    requires n <= |taxonomies|
    requires key.0 == userId && key.1.Terms? ==> key.1.taxonomy !in taxonomies
    ensures UserMeta.SameAt(ApplyTaxonomies(st, userId, taxonomies, merge, n).meta, st.meta, key)
  {
    if n > 0 {
      ApplyTaxonomiesFrame(st, userId, taxonomies, merge, n - 1, key);
    }
  }

  /**
   * apply_to_user changes nothing of other users, and of the user only the
   * grants it may write: a custom type or taxonomy that is not enabled keeps
   * its grant.
   */
  lemma ApplyFrame(meta: UserMeta.Meta, userId: int, content: Content, merge: bool, stored: Options,
                   key: (int, UserMeta.GrantKey))
    requires key.0 != userId || !MayWrite(key.1, stored)
    ensures UserMeta.SameAt(Applied(meta, userId, content, merge, stored), meta, key)
  {
    var st0 := ApplyState(meta, content);
    ApplyKeyFrame(st0, userId, "page", UserMeta.Pages, merge, key);
    var st1 := ApplyKey(st0, userId, "page", UserMeta.Pages, merge);
    ApplyKeyFrame(st1, userId, "post", UserMeta.Posts, merge, key);
    var st2 := ApplyKey(st1, userId, "post", UserMeta.Posts, merge);
    var types := AsList(Get(stored, EnabledPostTypes, List(["page", "post"])));
    ApplyTypesFrame(st2, userId, types, merge, |types|, key);
    var st3 := ApplyTypes(st2, userId, types, merge, |types|);
    var taxonomies := AsList(Get(stored, EnabledTaxonomies, List([])));
    ApplyTaxonomiesFrame(st3, userId, taxonomies, merge, |taxonomies|, key);
    var st4 := ApplyTaxonomies(st3, userId, taxonomies, merge, |taxonomies|);
    ApplyKeyFrame(st4, userId, "media", UserMeta.Media, merge, key);
  }

  /** One step writes only its own grant of the user. */
  lemma ApplyKeyFrame(st: ApplyState, userId: int, k: string, grant: UserMeta.GrantKey, merge: bool,
                      key: (int, UserMeta.GrantKey))
    requires key != (userId, grant)
    ensures UserMeta.SameAt(ApplyKey(st, userId, k, grant, merge).meta, st.meta, key)
  {
  }

  /** The page and post steps, seen from one of the two grants. */
  lemma PagePostStep(meta: UserMeta.Meta, userId: int, content: Content, merge: bool, key: string,
                     grant: UserMeta.GrantKey)
    requires (key, grant) == ("page", UserMeta.Pages) || (key, grant) == ("post", UserMeta.Posts)
    ensures var st1 := ApplyKey(ApplyState(meta, content), userId, "page", UserMeta.Pages, merge);
      var st2 := ApplyKey(st1, userId, "post", UserMeta.Posts, merge);
      && (Lookup(content, key).None? ==> UserMeta.SameAt(st2.meta, meta, (userId, grant)))
      && (Lookup(content, key).Some? ==>
            (userId, grant) in st2.meta &&
            st2.meta[(userId, grant)] ==
              UserMeta.IdList(DropZeros(if merge then Union(UserMeta.ReadIds(meta, userId, grant), Lookup(content, key).value)
                                        else Lookup(content, key).value)))
  {
    var st1 := ApplyKey(ApplyState(meta, content), userId, "page", UserMeta.Pages, merge);
    if Lookup(content, "page").Some? && merge {
      PutOther(content, "page", Union(UserMeta.ReadIds(meta, userId, UserMeta.Pages), Lookup(content, "page").value), "post");
    }
    assert Lookup(st1.content, "post") == Lookup(content, "post");
    if grant == UserMeta.Pages {
      assert UserMeta.SameAt(ApplyKey(st1, userId, "post", UserMeta.Posts, merge).meta, st1.meta, (userId, grant));
    } else {
      assert UserMeta.SameAt(st1.meta, meta, (userId, grant));
    }
  }

  /** The steps after pages and posts leave both grants alone. */
  lemma LaterStepsKeepPagesAndPosts(st2: ApplyState, userId: int, merge: bool, stored: Options, grant: UserMeta.GrantKey)
    requires grant == UserMeta.Pages || grant == UserMeta.Posts
    ensures var types := AsList(Get(stored, EnabledPostTypes, List(["page", "post"])));
      var st3 := ApplyTypes(st2, userId, types, merge, |types|);
      var taxonomies := AsList(Get(stored, EnabledTaxonomies, List([])));
      var st4 := ApplyTaxonomies(st3, userId, taxonomies, merge, |taxonomies|);
      UserMeta.SameAt(ApplyKey(st4, userId, "media", UserMeta.Media, merge).meta, st2.meta, (userId, grant))
  {
    var types := AsList(Get(stored, EnabledPostTypes, List(["page", "post"])));
    ApplyTypesFrame(st2, userId, types, merge, |types|, (userId, grant));
    var st3 := ApplyTypes(st2, userId, types, merge, |types|);
    var taxonomies := AsList(Get(stored, EnabledTaxonomies, List([])));
    ApplyTaxonomiesFrame(st3, userId, taxonomies, merge, |taxonomies|, (userId, grant));
  }

  /** The IDs a page or post grant reads back after a write: the non-zero ones, merged or not. */
  lemma WrittenIdsMembers(m: UserMeta.Meta, userId: int, grant: UserMeta.GrantKey, ids: seq<int>, old_: seq<int>,
                          merge: bool)
    requires (userId, grant) in m
    requires m[(userId, grant)] == UserMeta.IdList(DropZeros(if merge then Union(old_, ids) else ids))
    ensures forall x :: x in UserMeta.ReadIds(m, userId, grant) <==> x != 0 && (x in ids || (merge && x in old_))
  {
  }

  /**
   * Pages and posts: a template entry replaces the user's list (or is merged
   * into it), zeros dropped; without an entry the grant is left alone.
   */
  lemma AppliedPagesAndPosts(meta: UserMeta.Meta, userId: int, content: Content, merge: bool, stored: Options,
                             key: string, grant: UserMeta.GrantKey)
    requires (key, grant) == ("page", UserMeta.Pages) || (key, grant) == ("post", UserMeta.Posts)
    ensures Lookup(content, key).None? ==> UserMeta.SameAt(Applied(meta, userId, content, merge, stored), meta, (userId, grant))
    ensures Lookup(content, key).Some? ==>
      var ids := Lookup(content, key).value;
      var old_ := UserMeta.ReadIds(meta, userId, grant);
      && (userId, grant) in Applied(meta, userId, content, merge, stored)
      && Applied(meta, userId, content, merge, stored)[(userId, grant)] ==
           UserMeta.IdList(DropZeros(if merge then Union(old_, ids) else ids))
      && forall x :: x in UserMeta.ReadIds(Applied(meta, userId, content, merge, stored), userId, grant) <==>
           x != 0 && (x in ids || (merge && x in old_))
  {
    var st1 := ApplyKey(ApplyState(meta, content), userId, "page", UserMeta.Pages, merge);
    var st2 := ApplyKey(st1, userId, "post", UserMeta.Posts, merge);
    PagePostStep(meta, userId, content, merge, key, grant);
    LaterStepsKeepPagesAndPosts(st2, userId, merge, stored, grant);
    var applied := Applied(meta, userId, content, merge, stored);
    if Lookup(content, key).Some? {
      WrittenIdsMembers(applied, userId, grant, Lookup(content, key).value, UserMeta.ReadIds(meta, userId, grant), merge);
    }
  }

  /** Replacing one entry over meta + w is meta overlaid with the same step over w; the content is kept. */
  lemma ReplaceKeyOverlay(m: UserMeta.Meta, w: UserMeta.Meta, content: Content, userId: int, key: string,
                          grant: UserMeta.GrantKey)
    ensures ApplyKey(ApplyState(m + w, content), userId, key, grant, false) ==
            ApplyState(m + ApplyKey(ApplyState(w, content), userId, key, grant, false).meta, content)
  {
    var entry := Lookup(content, key);
    if entry.Some? {
      var v := UserMeta.IdList(UserMeta.StoredList(grant, entry.value));
      assert (m + w)[(userId, grant) := v] == m + w[(userId, grant) := v];
    }
  }

  lemma {:induction false} ReplaceTypesOverlay(m: UserMeta.Meta, w: UserMeta.Meta, content: Content, userId: int,
                                               types: seq<string>, n: nat)
    requires n <= |types|
    ensures ApplyTypes(ApplyState(m + w, content), userId, types, false, n) ==
            ApplyState(m + ApplyTypes(ApplyState(w, content), userId, types, false, n).meta, content)
  {
    if n > 0 {
      ReplaceTypesOverlay(m, w, content, userId, types, n - 1);
      var prev := ApplyTypes(ApplyState(w, content), userId, types, false, n - 1);
      assert prev.content == content by {
        ReplaceKeepsContent(ApplyState(w, content), userId, types, n - 1);
      }
      if types[n - 1] !in ["page", "post"] {
        ReplaceKeyOverlay(m, prev.meta, content, userId, types[n - 1], UserMeta.Content(types[n - 1]));
      }
    }
  }

  lemma {:induction false} ReplaceKeepsContent(st: ApplyState, userId: int, types: seq<string>, n: nat)
    requires n <= |types|
    ensures ApplyTypes(st, userId, types, false, n).content == st.content
  {
    if n > 0 {
      ReplaceKeepsContent(st, userId, types, n - 1);
    }
  }

  lemma {:induction false} ReplaceTaxonomiesKeepContent(st: ApplyState, userId: int, taxonomies: seq<string>, n: nat)
    requires n <= |taxonomies|
    ensures ApplyTaxonomies(st, userId, taxonomies, false, n).content == st.content
  {
    if n > 0 {
      ReplaceTaxonomiesKeepContent(st, userId, taxonomies, n - 1);
    }
  }

  lemma {:induction false} ReplaceTaxonomiesOverlay(m: UserMeta.Meta, w: UserMeta.Meta, content: Content,
                                                    userId: int, taxonomies: seq<string>, n: nat)
    requires n <= |taxonomies|
    ensures ApplyTaxonomies(ApplyState(m + w, content), userId, taxonomies, false, n) ==
            ApplyState(m + ApplyTaxonomies(ApplyState(w, content), userId, taxonomies, false, n).meta, content)
  {
    if n > 0 {
      ReplaceTaxonomiesOverlay(m, w, content, userId, taxonomies, n - 1);
      var prev := ApplyTaxonomies(ApplyState(w, content), userId, taxonomies, false, n - 1);
      assert prev.content == content by {
        ReplaceTaxonomiesKeepContent(ApplyState(w, content), userId, taxonomies, n - 1);
      }
      ReplaceKeyOverlay(m, prev.meta, content, userId, "tax_" + taxonomies[n - 1], UserMeta.Terms(taxonomies[n - 1]));
    }
  }

  /** Applying in replace mode writes the same entries over w whatever lies beneath it. */
  lemma ReplaceOverlay(m: UserMeta.Meta, w: UserMeta.Meta, userId: int, content: Content, stored: Options)
    ensures Applied(m + w, userId, content, false, stored) == m + Applied(w, userId, content, false, stored)
  {
    ReplaceKeyOverlay(m, w, content, userId, "page", UserMeta.Pages);
    var w1 := ApplyKey(ApplyState(w, content), userId, "page", UserMeta.Pages, false).meta;
    ReplaceKeyOverlay(m, w1, content, userId, "post", UserMeta.Posts);
    var w2 := ApplyKey(ApplyState(w1, content), userId, "post", UserMeta.Posts, false).meta;
    var types := AsList(Get(stored, EnabledPostTypes, List(["page", "post"])));
    ReplaceTypesOverlay(m, w2, content, userId, types, |types|);
    ReplaceKeepsContent(ApplyState(w2, content), userId, types, |types|);
    var w3 := ApplyTypes(ApplyState(w2, content), userId, types, false, |types|).meta;
    var taxonomies := AsList(Get(stored, EnabledTaxonomies, List([])));
    ReplaceTaxonomiesOverlay(m, w3, content, userId, taxonomies, |taxonomies|);
    ReplaceTaxonomiesKeepContent(ApplyState(w3, content), userId, taxonomies, |taxonomies|);
    var w4 := ApplyTaxonomies(ApplyState(w3, content), userId, taxonomies, false, |taxonomies|).meta;
    ReplaceKeyOverlay(m, w4, content, userId, "media", UserMeta.Media);
  }

  /**
   * Applying a template without merge overwrites: the result is the old meta
   * overlaid with a write set that depends on the template alone, so applying
   * it twice is the same as applying it once.
   */
  lemma ReplaceIdempotent(meta: UserMeta.Meta, userId: int, content: Content, stored: Options)
    ensures Applied(meta, userId, content, false, stored) == meta + Applied(map[], userId, content, false, stored)
    ensures Applied(Applied(meta, userId, content, false, stored), userId, content, false, stored) ==
            Applied(meta, userId, content, false, stored)
  {
    var w := Applied(map[], userId, content, false, stored);
    ReplaceOverlay(meta, map[], userId, content, stored);
    OverlayLaws(meta, w);
    ReplaceOverlay(meta + w, map[], userId, content, stored);
    OverlayLaws(meta + w, w);
  }

  /** Overlaying nothing changes nothing; overlaying the same map twice is overlaying it once. */
  lemma OverlayLaws(m: UserMeta.Meta, w: UserMeta.Meta)
    ensures m + map[] == m
    ensures (m + w) + w == m + w
  {
  }

  // ---------------------------------------------------------------------
  // create_from_user

  /** $content[key] = $ids when the list is not empty. */
  function AddIfNonEmpty(c: Content, key: string, ids: seq<int>): Content {
    if ids != [] then Put(c, key, ids) else c
  }

  /** The entries of the first n enabled custom types (page and post skipped). */
  function CreatedTypes(meta: UserMeta.Meta, userId: int, types: seq<string>, base: Content, n: nat): Content
    requires n <= |types|
  {
    if n == 0 then base
    else
      var prev := CreatedTypes(meta, userId, types, base, n - 1);
      if types[n - 1] in ["page", "post"] then prev
      else AddIfNonEmpty(prev, types[n - 1], UserMeta.ReadIds(meta, userId, UserMeta.ContentKey(types[n - 1])))
  }

  /** The tax_ entries of the first n enabled taxonomies. */
  function CreatedTaxonomies(meta: UserMeta.Meta, userId: int, taxonomies: seq<string>, base: Content, n: nat): Content
    requires n <= |taxonomies|
  {
    if n == 0 then base
    else
      var prev := CreatedTaxonomies(meta, userId, taxonomies, base, n - 1);
      AddIfNonEmpty(prev, "tax_" + taxonomies[n - 1], UserMeta.ReadIds(meta, userId, UserMeta.Terms(taxonomies[n - 1])))
  }

  /** The content create_from_user gathers from a user's grants. */
  function UserContent(meta: UserMeta.Meta, userId: int, stored: Options): Content {
    var c1 := AddIfNonEmpty([], "page", UserMeta.ReadIds(meta, userId, UserMeta.Pages));
    var c2 := AddIfNonEmpty(c1, "post", UserMeta.ReadIds(meta, userId, UserMeta.Posts));
    var types := AsList(Get(stored, EnabledPostTypes, List(["page", "post"])));
    var c3 := CreatedTypes(meta, userId, types, c2, |types|);
    var taxonomies := AsList(Get(stored, EnabledTaxonomies, List([])));
    var c4 := CreatedTaxonomies(meta, userId, taxonomies, c3, |taxonomies|);
    AddIfNonEmpty(c4, "media", UserMeta.ReadIds(meta, userId, UserMeta.Media))
  }

  /** Gathered content handed to save_template as an array of ID arrays. */
  function AsRaw(c: Content): (r: RawContent)
    ensures r.RawEntries? && |r.entries| == |c|
    ensures forall i :: 0 <= i < |c| ==> r.entries[i] == (c[i].0, IdArray(AsScalars(c[i].1)))
  {
    RawEntries(seq(|c|, i requires 0 <= i < |c| => (c[i].0, IdArray(AsScalars(c[i].1)))))
  }

  /** The data create_from_user passes to save_template. */
  function CreatedInput(name: string, description: string, c: Content): TemplateInput {
    TemplateInput(Some(name), Some(description), Some(AsRaw(c)))
  }

  /** Every list of gathered content is non-empty. */
  ghost predicate NonEmptyLists(c: Content) {
    forall k, ids :: Lookup(c, k) == Some(ids) ==> ids != []
  }

  lemma AddIfNonEmptyKeeps(c: Content, key: string, ids: seq<int>)
    requires DistinctKeys(c) && NonEmptyLists(c)
    ensures DistinctKeys(AddIfNonEmpty(c, key, ids)) && NonEmptyLists(AddIfNonEmpty(c, key, ids))
  {
    if ids != [] {
      PutDistinct(c, key, ids);
    }
  }

  lemma {:induction false} CreatedTypesShape(meta: UserMeta.Meta, userId: int, types: seq<string>, base: Content,
                                             n: nat)
    requires n <= |types| && DistinctKeys(base) && NonEmptyLists(base)
    ensures var c := CreatedTypes(meta, userId, types, base, n);
      DistinctKeys(c) && NonEmptyLists(c) && Lookup(c, "page") == Lookup(base, "page") &&
      Lookup(c, "post") == Lookup(base, "post")
  {
    if n > 0 {
      CreatedTypesShape(meta, userId, types, base, n - 1);
      var prev := CreatedTypes(meta, userId, types, base, n - 1);
      if types[n - 1] !in ["page", "post"] {
        AddIfNonEmptyKeeps(prev, types[n - 1], UserMeta.ReadIds(meta, userId, UserMeta.ContentKey(types[n - 1])));
      }
    }
  }

  lemma {:induction false} CreatedTaxonomiesShape(meta: UserMeta.Meta, userId: int, taxonomies: seq<string>,
                                                  base: Content, n: nat)
    requires n <= |taxonomies| && DistinctKeys(base) && NonEmptyLists(base)
    ensures var c := CreatedTaxonomies(meta, userId, taxonomies, base, n);
      DistinctKeys(c) && NonEmptyLists(c) && Lookup(c, "page") == Lookup(base, "page") &&
      Lookup(c, "post") == Lookup(base, "post")
  {
    if n > 0 {
      CreatedTaxonomiesShape(meta, userId, taxonomies, base, n - 1);
      var prev := CreatedTaxonomies(meta, userId, taxonomies, base, n - 1);
      var key := "tax_" + taxonomies[n - 1];
      assert key[0] == 't' && "page"[0] == 'p' && "post"[0] == 'p';
      AddIfNonEmptyKeeps(prev, key, UserMeta.ReadIds(meta, userId, UserMeta.Terms(taxonomies[n - 1])));
    }
  }

  /** The page and post entries gathered first. */
  lemma CorePartShape(meta: UserMeta.Meta, userId: int)
    ensures var pages := UserMeta.ReadIds(meta, userId, UserMeta.Pages);
      var posts := UserMeta.ReadIds(meta, userId, UserMeta.Posts);
      var c := AddIfNonEmpty(AddIfNonEmpty([], "page", pages), "post", posts);
      && DistinctKeys(c) && NonEmptyLists(c)
      && Lookup(c, "page") == (if pages != [] then Some(pages) else None)
      && Lookup(c, "post") == (if posts != [] then Some(posts) else None)
  {
    var pages := UserMeta.ReadIds(meta, userId, UserMeta.Pages);
    var posts := UserMeta.ReadIds(meta, userId, UserMeta.Posts);
    var c0: Content := [];
    var c1 := AddIfNonEmpty(c0, "page", pages);
    AddIfNonEmptyKeeps(c0, "page", pages);
    assert Lookup(c1, "post") == None;
    AddIfNonEmptyKeeps(c1, "post", posts);
    if posts != [] {
      assert "post"[1] != "page"[1];
      PutOther(c1, "post", posts, "page");
    }
  }

  /**
   * The gathered content has each key once and no empty list; it has a page
   * (post, media) entry exactly when the user has a non-empty page (post,
   * media) grant, and that entry is the grant.
   */
  lemma UserContentShape(meta: UserMeta.Meta, userId: int, stored: Options)
    ensures var c := UserContent(meta, userId, stored);
      && DistinctKeys(c) && NonEmptyLists(c)
      && Lookup(c, "page") == (var p := UserMeta.ReadIds(meta, userId, UserMeta.Pages); if p != [] then Some(p) else None)
      && Lookup(c, "post") == (var p := UserMeta.ReadIds(meta, userId, UserMeta.Posts); if p != [] then Some(p) else None)
      && (UserMeta.ReadIds(meta, userId, UserMeta.Media) != [] ==>
            Lookup(c, "media") == Some(UserMeta.ReadIds(meta, userId, UserMeta.Media)))
  {
    var media := UserMeta.ReadIds(meta, userId, UserMeta.Media);
    CorePartShape(meta, userId);
    var c2 := AddIfNonEmpty(AddIfNonEmpty([], "page", UserMeta.ReadIds(meta, userId, UserMeta.Pages)), "post",
                            UserMeta.ReadIds(meta, userId, UserMeta.Posts));
    var types := AsList(Get(stored, EnabledPostTypes, List(["page", "post"])));
    CreatedTypesShape(meta, userId, types, c2, |types|);
    var c3 := CreatedTypes(meta, userId, types, c2, |types|);
    var taxonomies := AsList(Get(stored, EnabledTaxonomies, List([])));
    CreatedTaxonomiesShape(meta, userId, taxonomies, c3, |taxonomies|);
    var c4 := CreatedTaxonomies(meta, userId, taxonomies, c3, |taxonomies|);
    AddIfNonEmptyKeeps(c4, "media", media);
    if media != [] {
      assert "media"[0] != "page"[0] && "media"[0] != "post"[0];
      PutOther(c4, "media", media, "page");
      PutOther(c4, "media", media, "post");
    }
  }

  /** The first n pairs of c, as sanitisation sees them. */
  lemma {:induction false} SanitizedPlainPrefix(c: Content, sanitizeKey: string -> string, n: nat, k: string)
    requires n <= |c| && DistinctKeys(c)
    requires forall i :: 0 <= i < |c| ==> sanitizeKey(c[i].0) == c[i].0
    ensures Lookup(SanitizedEntries(AsRaw(c).entries, sanitizeKey, n), k) ==
      if Lookup(c[..n], k).Some? then Some(DropZeros(Lookup(c[..n], k).value)) else None
  {
    if n > 0 {
      SanitizedPlainPrefix(c, sanitizeKey, n - 1, k);
      var (key, ids) := c[n - 1];
      IntvalAllOfInts(ids);
      assert c[..n] == c[..n - 1] + [(key, ids)];
      LookupAppend(c[..n - 1], key, ids, k);
      if key == k {
        LookupIndex(c[..n - 1], k);
      }
    }
  }

  /**
   * Content whose keys are distinct and already sanitised survives
   * sanitisation with only its zeros dropped.
   */
  lemma SanitizedPlain(c: Content, sanitizeKey: string -> string, k: string)
    requires DistinctKeys(c)
    requires forall i :: 0 <= i < |c| ==> sanitizeKey(c[i].0) == c[i].0
    ensures Lookup(SanitizedContent(AsRaw(c), sanitizeKey), k) ==
      if Lookup(c, k).Some? then Some(DropZeros(Lookup(c, k).value)) else None
  {
    SanitizedPlainPrefix(c, sanitizeKey, |c|, k);
    assert c[..|c|] == c;
  }

  /**
   * A template created from user u and applied without merge to user v gives
   * v the non-zero pages of u when u has any, and leaves v's pages alone
   * otherwise; the same holds for posts.
   */
  lemma CopyThroughTemplate(meta: UserMeta.Meta, u: int, stored: Options, name: string, description: string,
                            templates: map<string, Template>, id: string, now: string,
                            sanitizeText: string -> string, sanitizeTextarea: string -> string,
                            sanitizeKey: string -> string, target: UserMeta.Meta, v: int, key: string,
                            grant: UserMeta.GrantKey)
    requires (key, grant) == ("page", UserMeta.Pages) || (key, grant) == ("post", UserMeta.Posts)
    requires forall i :: 0 <= i < |UserContent(meta, u, stored)| ==>
      sanitizeKey(UserContent(meta, u, stored)[i].0) == UserContent(meta, u, stored)[i].0
    ensures var t := SavedTemplate(templates, id, CreatedInput(name, description, UserContent(meta, u, stored)),
                                   now, sanitizeText, sanitizeTextarea, sanitizeKey);
      var after := Applied(target, v, t.content, false, stored);
      && (UserMeta.ReadIds(meta, u, grant) != [] ==>
            UserMeta.ReadIds(after, v, grant) == DropZeros(UserMeta.ReadIds(meta, u, grant)))
      && (UserMeta.ReadIds(meta, u, grant) == [] ==> UserMeta.SameAt(after, target, (v, grant)))
  {
    var c := UserContent(meta, u, stored);
    UserContentShape(meta, u, stored);
    SanitizedPlain(c, sanitizeKey, key);
    var t := SavedTemplate(templates, id, CreatedInput(name, description, c), now, sanitizeText, sanitizeTextarea, sanitizeKey);
    AppliedPagesAndPosts(target, v, t.content, false, stored, key, grant);
    UserMeta.SetIdempotent(UserMeta.ReadIds(meta, u, grant));
  }

  // ---------------------------------------------------------------------
  // get_template_summary

  /** The counts of pages, posts and media. */
  function CoreCounts(content: Content): Assoc<int> {
    var s0: Assoc<int> := [];
    var s1 := if Lookup(content, "page").Some? then Put(s0, "pages", |Lookup(content, "page").value|) else s0;
    var s2 := if Lookup(content, "post").Some? then Put(s1, "posts", |Lookup(content, "post").value|) else s1;
    if Lookup(content, "media").Some? then Put(s2, "media", |Lookup(content, "media").value|) else s2
  }

  /** A key that names a custom post type: not page, post or media, and not a tax_ key. */
  predicate TypeKey(key: string) {
    key !in ["page", "post", "media"] && !StartsWith(key, "tax_")
  }

  /** The first n entries' custom post type counts, under the type's label when the type exists. */
  function TypeCounts(content: Content, base: Assoc<int>, typeLabel: string -> Option<string>, n: nat): Assoc<int>
    requires n <= |content|
  {
    if n == 0 then base
    else
      var prev := TypeCounts(content, base, typeLabel, n - 1);
      var (key, ids) := content[n - 1];
      if TypeKey(key) && typeLabel(key).Some? then Put(prev, typeLabel(key).value, |ids|) else prev
  }

  /** The first n entries' taxonomy counts, under the taxonomy's label when it exists. */
  function TaxonomyCounts(content: Content, base: Assoc<int>, taxonomyLabel: string -> Option<string>,
                          n: nat): Assoc<int>
    requires n <= |content|
  {
    if n == 0 then base
    else
      var prev := TaxonomyCounts(content, base, taxonomyLabel, n - 1);
      var (key, ids) := content[n - 1];
      if StartsWith(key, "tax_") && taxonomyLabel(key[4..]).Some? then Put(prev, taxonomyLabel(key[4..]).value, |ids|)
      else prev
  }

  /** The summary of a template's content. */
  function Summary(content: Content, typeLabel: string -> Option<string>,
                   taxonomyLabel: string -> Option<string>): Assoc<int> {
    var s := TypeCounts(content, CoreCounts(content), typeLabel, |content|);
    TaxonomyCounts(content, s, taxonomyLabel, |content|)
  }

  /** Every count in a summary is the length of some list of the content. */
  ghost predicate CountsOf(s: Assoc<int>, content: Content) {
    forall l, c :: Lookup(s, l) == Some(c) ==> exists i :: 0 <= i < |content| && c == |content[i].1|
  }

  lemma LookupSomeIndex<V>(a: Assoc<V>, k: string)
    requires Lookup(a, k).Some?
    ensures exists i :: 0 <= i < |a| && a[i] == (k, Lookup(a, k).value)
  {
    if a[0].0 != k {
      LookupSomeIndex(a[1..], k);
      var i :| 0 <= i < |a[1..]| && a[1..][i] == (k, Lookup(a, k).value);
      assert a[i + 1] == a[1..][i];
    }
  }

  /** Adding the size of one of the content's lists keeps CountsOf. */
  lemma PutCount(s: Assoc<int>, content: Content, l: string, i: nat)
    requires CountsOf(s, content) && i < |content|
    ensures CountsOf(Put(s, l, |content[i].1|), content)
  {
  }

  /** Adding the size of the list under key k keeps CountsOf. */
  lemma PutLookupCount(s: Assoc<int>, content: Content, l: string, k: string)
    requires CountsOf(s, content) && Lookup(content, k).Some?
    ensures CountsOf(Put(s, l, |Lookup(content, k).value|), content)
  {
    LookupSomeIndex(content, k);
    var i :| 0 <= i < |content| && content[i] == (k, Lookup(content, k).value);
    PutCount(s, content, l, i);
  }

  lemma CoreCountsAreCounts(content: Content)
    ensures CountsOf(CoreCounts(content), content)
  {
    var s0: Assoc<int> := [];
    var s1 := if Lookup(content, "page").Some? then Put(s0, "pages", |Lookup(content, "page").value|) else s0;
    if Lookup(content, "page").Some? {
      PutLookupCount(s0, content, "pages", "page");
    }
    var s2 := if Lookup(content, "post").Some? then Put(s1, "posts", |Lookup(content, "post").value|) else s1;
    if Lookup(content, "post").Some? {
      PutLookupCount(s1, content, "posts", "post");
    }
    if Lookup(content, "media").Some? {
      PutLookupCount(s2, content, "media", "media");
    }
  }

  lemma {:induction false} TypeCountsAreCounts(content: Content, base: Assoc<int>,
                                               typeLabel: string -> Option<string>, n: nat)
    requires n <= |content| && CountsOf(base, content)
    ensures CountsOf(TypeCounts(content, base, typeLabel, n), content)
  {
    if n > 0 {
      TypeCountsAreCounts(content, base, typeLabel, n - 1);
      var key := content[n - 1].0;
      if TypeKey(key) && typeLabel(key).Some? {
        PutCount(TypeCounts(content, base, typeLabel, n - 1), content, typeLabel(key).value, n - 1);
      }
    }
  }

  lemma {:induction false} TaxonomyCountsAreCounts(content: Content, base: Assoc<int>,
                                                   taxonomyLabel: string -> Option<string>, n: nat)
    requires n <= |content| && CountsOf(base, content)
    ensures CountsOf(TaxonomyCounts(content, base, taxonomyLabel, n), content)
  {
    if n > 0 {
      TaxonomyCountsAreCounts(content, base, taxonomyLabel, n - 1);
      var key := content[n - 1].0;
      if StartsWith(key, "tax_") && taxonomyLabel(key[4..]).Some? {
        PutCount(TaxonomyCounts(content, base, taxonomyLabel, n - 1), content, taxonomyLabel(key[4..]).value, n - 1);
      }
    }
  }

  /** The count get_template_summary reports for a content key: the size of its list, when it is set. */
  function CountOf(content: Content, k: string): (r: Option<int>)
    ensures r.Some? <==> Lookup(content, k).Some?
  {
    if Lookup(content, k).Some? then Some(|Lookup(content, k).value|) else None
  }

  /** The core counts are the counts of page, post and media, under pages, posts and media. */
  lemma CoreCountsKeys(content: Content)
    ensures Lookup(CoreCounts(content), "pages") == CountOf(content, "page")
    ensures Lookup(CoreCounts(content), "posts") == CountOf(content, "post")
    ensures Lookup(CoreCounts(content), "media") == CountOf(content, "media")
  {
    var s0: Assoc<int> := [];
    var s1 := if Lookup(content, "page").Some? then Put(s0, "pages", |Lookup(content, "page").value|) else s0;
    assert "posts"[1] != "pages"[1] && "media"[0] != "pages"[0] && "media"[0] != "posts"[0];
    assert Lookup(s1, "posts").None? && Lookup(s1, "media").None?;
    var s2 := if Lookup(content, "post").Some? then Put(s1, "posts", |Lookup(content, "post").value|) else s1;
    if Lookup(content, "post").Some? {
      PutOther(s1, "posts", |Lookup(content, "post").value|, "pages");
      PutOther(s1, "posts", |Lookup(content, "post").value|, "media");
    }
    if Lookup(content, "media").Some? {
      PutOther(s2, "media", |Lookup(content, "media").value|, "pages");
      PutOther(s2, "media", |Lookup(content, "media").value|, "posts");
    }
  }

  /** No post type and no taxonomy is labelled l. */
  ghost predicate LabelFree(typeLabel: string -> Option<string>, taxonomyLabel: string -> Option<string>, l: string) {
    forall k :: typeLabel(k) != Some(l) && taxonomyLabel(k) != Some(l)
  }

  /** The custom type counts leave a key that is no type's label alone. */
  lemma {:induction false} TypeCountsKeep(content: Content, base: Assoc<int>, typeLabel: string -> Option<string>,
                                          n: nat, l: string)
    requires n <= |content|
    requires forall k :: typeLabel(k) != Some(l)
    ensures Lookup(TypeCounts(content, base, typeLabel, n), l) == Lookup(base, l)
  {
    if n > 0 {
      TypeCountsKeep(content, base, typeLabel, n - 1, l);
      var key := content[n - 1].0;
      if TypeKey(key) && typeLabel(key).Some? {
        PutOther(TypeCounts(content, base, typeLabel, n - 1), typeLabel(key).value, |content[n - 1].1|, l);
      }
    }
  }

  /** The taxonomy counts leave a key that is no taxonomy's label alone. */
  lemma {:induction false} TaxonomyCountsKeep(content: Content, base: Assoc<int>,
                                              taxonomyLabel: string -> Option<string>, n: nat, l: string)
    requires n <= |content|
    requires forall k :: taxonomyLabel(k) != Some(l)
    ensures Lookup(TaxonomyCounts(content, base, taxonomyLabel, n), l) == Lookup(base, l)
  {
    if n > 0 {
      TaxonomyCountsKeep(content, base, taxonomyLabel, n - 1, l);
      var key := content[n - 1].0;
      if StartsWith(key, "tax_") && taxonomyLabel(key[4..]).Some? {
        PutOther(TaxonomyCounts(content, base, taxonomyLabel, n - 1), taxonomyLabel(key[4..]).value,
                 |content[n - 1].1|, l);
      }
    }
  }

  /** A key no label takes holds in the summary what the core counts hold. */
  lemma SummaryKeepsCore(content: Content, typeLabel: string -> Option<string>,
                         taxonomyLabel: string -> Option<string>, l: string)
    requires LabelFree(typeLabel, taxonomyLabel, l)
    ensures Lookup(Summary(content, typeLabel, taxonomyLabel), l) == Lookup(CoreCounts(content), l)
  {
    TypeCountsKeep(content, CoreCounts(content), typeLabel, |content|, l);
    TaxonomyCountsKeep(content, TypeCounts(content, CoreCounts(content), typeLabel, |content|), taxonomyLabel,
                       |content|, l);
  }

  /**
   * Every number in the summary is the size of one of the template's lists,
   * and pages, posts and media carry the sizes of the page, post and media
   * lists whenever no post type or taxonomy label takes those names.
   */
  lemma SummaryShape(content: Content, typeLabel: string -> Option<string>, taxonomyLabel: string -> Option<string>)
    ensures CountsOf(Summary(content, typeLabel, taxonomyLabel), content)
    ensures LabelFree(typeLabel, taxonomyLabel, "pages") ==>
      Lookup(Summary(content, typeLabel, taxonomyLabel), "pages") == CountOf(content, "page")
    ensures LabelFree(typeLabel, taxonomyLabel, "posts") ==>
      Lookup(Summary(content, typeLabel, taxonomyLabel), "posts") == CountOf(content, "post")
    ensures LabelFree(typeLabel, taxonomyLabel, "media") ==>
      Lookup(Summary(content, typeLabel, taxonomyLabel), "media") == CountOf(content, "media")
  {
    CoreCountsKeys(content);
    CoreCountsAreCounts(content);
    TypeCountsAreCounts(content, CoreCounts(content), typeLabel, |content|);
    TaxonomyCountsAreCounts(content, TypeCounts(content, CoreCounts(content), typeLabel, |content|),
                            taxonomyLabel, |content|);
    if LabelFree(typeLabel, taxonomyLabel, "pages") {
      SummaryKeepsCore(content, typeLabel, taxonomyLabel, "pages");
    }
    if LabelFree(typeLabel, taxonomyLabel, "posts") {
      SummaryKeepsCore(content, typeLabel, taxonomyLabel, "posts");
    }
    if LabelFree(typeLabel, taxonomyLabel, "media") {
      SummaryKeepsCore(content, typeLabel, taxonomyLabel, "media");
    }
  }
}
