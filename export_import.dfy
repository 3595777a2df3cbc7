/**
 * Export and import of the plugin's data: the settings, the templates and
 * every restricted user's grants, keyed by user login.
 */
module ExportImport {
  import opened PhpArrays
  import opened Settings
  import Wp
  import UserMeta
  import AccessTemplates

  /** A value in one user's exported or imported entry; an ID list holds the array items as decoded. */
  datatype Field = Ids(ids: seq<Scalar>) | Text(text: string) | Dates(start: Option<string>, end: Option<string>) | Null

  /** One user's entry: user_login, user_email, pages, posts, media, schedule, custom type and tax_ keys. */
  type UserData = Assoc<Field>

  /** The grants the import writes: the meta lists and the schedules. */
  datatype Grants = Grants(meta: UserMeta.Meta, schedules: map<int, UserMeta.Schedule>)

  /** The enabled lists both directions read. */
  function TypeList(stored: Options): seq<string> {
    AsList(Get(stored, EnabledPostTypes, List(["page", "post"])))
  }

  function TaxonomyList(stored: Options): seq<string> {
    AsList(Get(stored, EnabledTaxonomies, List([])))
  }

  // ---------------------------------------------------------------------
  // generate_export_data

  /** The custom type entries of the first n enabled types (page and post skipped). */
  function ExportTypes(meta: UserMeta.Meta, userId: int, types: seq<string>, base: UserData, n: nat): UserData
    requires n <= |types|
  {
    if n == 0 then base
    else
      var prev := ExportTypes(meta, userId, types, base, n - 1);
      if types[n - 1] in ["page", "post"] then prev
      else Put(prev, types[n - 1], Ids(AsScalars(UserMeta.ReadIds(meta, userId, UserMeta.ContentKey(types[n - 1])))))
  }

  /** The tax_ entries of the first n enabled taxonomies. */
  function ExportTaxonomies(meta: UserMeta.Meta, userId: int, taxonomies: seq<string>, base: UserData, n: nat): UserData
    requires n <= |taxonomies|
  {
    if n == 0 then base
    else
      var prev := ExportTaxonomies(meta, userId, taxonomies, base, n - 1);
      Put(prev, "tax_" + taxonomies[n - 1], Ids(AsScalars(UserMeta.ReadIds(meta, userId, UserMeta.Terms(taxonomies[n - 1])))))
  }

  /** The fixed part of a user's entry. */
  function ExportBase(meta: UserMeta.Meta, schedule: UserMeta.Schedule, user: Wp.User): UserData {
    [("user_login", Text(user.login)), ("user_email", Text(user.email)),
     ("pages", Ids(AsScalars(UserMeta.ReadIds(meta, user.id, UserMeta.Pages)))),
     ("posts", Ids(AsScalars(UserMeta.ReadIds(meta, user.id, UserMeta.Posts)))),
     ("media", Ids(AsScalars(UserMeta.ReadIds(meta, user.id, UserMeta.Media)))),
     ("schedule", Dates(schedule.start, schedule.end))]
  }

  /** A user's exported entry. */
  function ExportUser(g: Grants, user: Wp.User, stored: Options): UserData {
    var schedule := if user.id in g.schedules then g.schedules[user.id] else UserMeta.Schedule(None, None);
    var withTypes := ExportTypes(g.meta, user.id, TypeList(stored), ExportBase(g.meta, schedule, user), |TypeList(stored)|);
    ExportTaxonomies(g.meta, user.id, TaxonomyList(stored), withTypes, |TaxonomyList(stored)|)
  }

  /** The user_access part for the first n restricted users, keyed by login. */
  function ExportUsers(g: Grants, users: seq<Wp.User>, stored: Options, n: nat): Assoc<UserData>
    requires n <= |users|
  {
    if n == 0 then []
    else Put(ExportUsers(g, users, stored, n - 1), users[n - 1].login, ExportUser(g, users[n - 1], stored))
  }

  datatype ExportData = ExportData(version: string, exportedAt: string, siteUrl: string, settings: Options,
                                   templates: map<string, AccessTemplates.Template>,
                                   userAccess: Assoc<UserData>)

  /**
   * generate_export_data; restrictedUsers is what get_users returns for the
   * restricted roles, and version, exportedAt and siteUrl are the values the
   * plugin reads from its constant, the clock and the site.
   */
  method GenerateExportData(settings: SettingsOption, templates: AccessTemplates.TemplateStore,
                            grants: UserMeta.GrantStore, restrictedUsers: seq<Wp.User>,
                            version: string, exportedAt: string, siteUrl: string) returns (data: ExportData)
    ensures data == ExportData(version, exportedAt, siteUrl, GetSettings(settings.stored), templates.Templates(),
                               ExportUsers(Grants(grants.meta, grants.schedules), restrictedUsers, settings.stored,
                                           |restrictedUsers|))
  {
    var access: Assoc<UserData> := [];
    for i := 0 to |restrictedUsers|
      invariant access == ExportUsers(Grants(grants.meta, grants.schedules), restrictedUsers, settings.stored, i)
    {
      var user := restrictedUsers[i];
      var userData := ExportUserData(grants, user, settings.stored);
      access := Put(access, user.login, userData);
    }
    data := ExportData(version, exportedAt, siteUrl, GetSettings(settings.stored), templates.Templates(), access);
  }

  /** The entry of one user, as generate_export_data builds it. */
  method ExportUserData(grants: UserMeta.GrantStore, user: Wp.User, stored: Options) returns (userData: UserData)
    ensures userData == ExportUser(Grants(grants.meta, grants.schedules), user, stored)
  {
    userData := ExportBase(grants.meta, grants.ScheduleOf(user.id), user);
    var types := TypeList(stored);
    var base := userData;
    for i := 0 to |types|
      invariant userData == ExportTypes(grants.meta, user.id, types, base, i)
    {
      if types[i] in ["page", "post"] {
        continue;
      }
      userData := Put(userData, types[i], Ids(AsScalars(grants.AllowedContent(user.id, types[i]))));
    }
    var taxonomies := TaxonomyList(stored);
    base := userData;
    for i := 0 to |taxonomies|
      invariant userData == ExportTaxonomies(grants.meta, user.id, taxonomies, base, i)
    {
      userData := Put(userData, "tax_" + taxonomies[i], Ids(AsScalars(grants.AllowedTerms(user.id, taxonomies[i]))));
    }
  }

  // ---------------------------------------------------------------------
  // import_data

  /** The parts of the imported data the import reads; None when absent or not an array. */
  datatype ImportInput = ImportInput(settings: Option<Options>,
                                     templates: Option<Assoc<AccessTemplates.TemplateInput>>,
                                     userAccess: Option<Assoc<UserData>>)

  /** get_user_by('login', …) and get_user_by('email', …), as WordPress answers them. */
  type ByLogin = string -> Option<Wp.User>
  type ByEmail = string -> Option<Wp.User>

  /** The user an entry is imported for: by login, else by the entry's user_email. */
  function ResolveUser(login: string, userData: UserData, byLogin: ByLogin, byEmail: ByEmail): (r: Option<Wp.User>)
    ensures byLogin(login).Some? ==> r == byLogin(login)
    ensures byLogin(login).None? ==>
      r == EmailLookup(userData, byEmail)
  {
    if byLogin(login).Some? then byLogin(login) else EmailLookup(userData, byEmail)
  }

  /** get_user_by('email') with the entry's user_email, when it is set to a string. */
  function EmailLookup(userData: UserData, byEmail: ByEmail): Option<Wp.User> {
    var email := Lookup(userData, "user_email");
    if email.Some? && email.value.Text? then byEmail(email.value.text) else None
  }

  /** The ID list under a key, when the key is set to one. */
  function IdsAt(userData: UserData, key: string): Option<seq<Scalar>> {
    var v := Lookup(userData, key);
    if v.Some? && v.value.Ids? then Some(v.value.ids) else None
  }

  /** The schedule under "schedule", when it is an array; a missing date is null. */
  function ScheduleAt(userData: UserData): Option<UserMeta.Schedule> {
    var v := Lookup(userData, "schedule");
    if v.Some? && v.value.Dates? then Some(UserMeta.Schedule(v.value.start, v.value.end)) else None
  }

  /** One list key: written with the grant's setter, which applies intval to each item, when set. */
  function ImportKey(g: Grants, userId: int, userData: UserData, key: string, grant: UserMeta.GrantKey): Grants {
    if IdsAt(userData, key).Some? then g.(meta := UserMeta.Written(g.meta, userId, grant, IntvalAll(IdsAt(userData, key).value)))
    else g
  }

  function ImportTypes(g: Grants, userId: int, userData: UserData, types: seq<string>, n: nat): Grants
    requires n <= |types|
  {
    if n == 0 then g
    else
      var prev := ImportTypes(g, userId, userData, types, n - 1);
      if types[n - 1] in ["page", "post"] then prev
      else ImportKey(prev, userId, userData, types[n - 1], UserMeta.Content(types[n - 1]))
  }

  function ImportTaxonomies(g: Grants, userId: int, userData: UserData, taxonomies: seq<string>, n: nat): Grants
    requires n <= |taxonomies|
  {
    if n == 0 then g
    else
      var prev := ImportTaxonomies(g, userId, userData, taxonomies, n - 1);
      ImportKey(prev, userId, userData, "tax_" + taxonomies[n - 1], UserMeta.Terms(taxonomies[n - 1]))
  }

  /** The fixed keys and the schedule of one entry. */
  function ImportFixed(g: Grants, userId: int, userData: UserData): Grants {
    var g1 := ImportKey(g, userId, userData, "pages", UserMeta.Pages);
    var g2 := ImportKey(g1, userId, userData, "posts", UserMeta.Posts);
    var g3 := ImportKey(g2, userId, userData, "media", UserMeta.Media);
    if ScheduleAt(userData).Some? then g3.(schedules := g3.schedules[userId := ScheduleAt(userData).value]) else g3
  }

  /** The grants after one user's entry: pages, posts, media, schedule, custom types, taxonomies. */
  function ImportUser(g: Grants, userId: int, userData: UserData, stored: Options): Grants {
    var g4 := ImportFixed(g, userId, userData);
    var g5 := ImportTypes(g4, userId, userData, TypeList(stored), |TypeList(stored)|);
    ImportTaxonomies(g5, userId, userData, TaxonomyList(stored), |TaxonomyList(stored)|)
  }

  /** The grants after the first n entries; an entry whose user is not found is skipped. */
  function ImportUsers(g: Grants, entries: Assoc<UserData>, stored: Options, byLogin: ByLogin, byEmail: ByEmail,
                       n: nat): Grants
    requires n <= |entries|
  {
    if n == 0 then g
    else
      var prev := ImportUsers(g, entries, stored, byLogin, byEmail, n - 1);
      var user := ResolveUser(entries[n - 1].0, entries[n - 1].1, byLogin, byEmail);
      if user.None? then prev else ImportUser(prev, user.value.id, entries[n - 1].1, stored)
  }

  /** The templates after saving the first n imported ones; uuidAt(i) is the ID drawn for the i-th. */
  function SaveAll(templates: map<string, AccessTemplates.Template>, entries: Assoc<AccessTemplates.TemplateInput>,
                   uuidAt: nat -> string, now: string, sanitizeText: string -> string,
                   sanitizeTextarea: string -> string, sanitizeKey: string -> string, n: nat): map<string, AccessTemplates.Template>
    requires n <= |entries|
  {
    if n == 0 then templates
    else
      var prev := SaveAll(templates, entries, uuidAt, now, sanitizeText, sanitizeTextarea, sanitizeKey, n - 1);
      var id := AccessTemplates.TemplateIdFor(entries[n - 1].0, uuidAt(n - 1));
      prev[id := AccessTemplates.SavedTemplate(prev, id, entries[n - 1].1, now, sanitizeText, sanitizeTextarea, sanitizeKey)]
  }

  lemma SaveAllStep(templates: map<string, AccessTemplates.Template>, entries: Assoc<AccessTemplates.TemplateInput>,
                    uuidAt: nat -> string, now: string, sanitizeText: string -> string,
                    sanitizeTextarea: string -> string, sanitizeKey: string -> string, n: nat)
    requires 0 < n <= |entries|
    ensures SaveAll(templates, entries, uuidAt, now, sanitizeText, sanitizeTextarea, sanitizeKey, n).Keys ==
      SaveAll(templates, entries, uuidAt, now, sanitizeText, sanitizeTextarea, sanitizeKey, n - 1).Keys +
      {AccessTemplates.TemplateIdFor(entries[n - 1].0, uuidAt(n - 1))}
  {
  }

  /** The IDs the first n imported templates are saved under. */
  function SavedIds(entries: Assoc<AccessTemplates.TemplateInput>, uuidAt: nat -> string, n: nat): set<string>
    requires n <= |entries|
  {
    if n == 0 then {} else SavedIds(entries, uuidAt, n - 1) + {AccessTemplates.TemplateIdFor(entries[n - 1].0, uuidAt(n - 1))}
  }

  /** Each of the first n imported templates has its ID among them. */
  lemma {:induction false} SavedIdsHas(entries: Assoc<AccessTemplates.TemplateInput>, uuidAt: nat -> string, n: nat,
                                       i: nat)
    requires i < n <= |entries|
    ensures AccessTemplates.TemplateIdFor(entries[i].0, uuidAt(i)) in SavedIds(entries, uuidAt, n)
  {
    if i < n - 1 {
      SavedIdsHas(entries, uuidAt, n - 1, i);
    }
  }

  /** The import keeps every existing template and adds exactly one key per imported template (a fresh one when empty). */
  lemma {:induction false} SaveAllKeys(templates: map<string, AccessTemplates.Template>,
                                       entries: Assoc<AccessTemplates.TemplateInput>, uuidAt: nat -> string,
                                       now: string, sanitizeText: string -> string,
                                       sanitizeTextarea: string -> string, sanitizeKey: string -> string, n: nat)
    requires n <= |entries|
    ensures SaveAll(templates, entries, uuidAt, now, sanitizeText, sanitizeTextarea, sanitizeKey, n).Keys ==
            templates.Keys + SavedIds(entries, uuidAt, n)
  {
    if n > 0 {
      SaveAllKeys(templates, entries, uuidAt, now, sanitizeText, sanitizeTextarea, sanitizeKey, n - 1);
      SaveAllStep(templates, entries, uuidAt, now, sanitizeText, sanitizeTextarea, sanitizeKey, n);
    }
  }

  /**
   * import_data: saves the settings, then every template, then every user
   * entry whose user is found; always answers true.
   */
  method ImportData(data: ImportInput, settings: SettingsOption, templates: AccessTemplates.TemplateStore,
                    grants: UserMeta.GrantStore, byLogin: ByLogin, byEmail: ByEmail,
                    uuidAt: nat -> string, now: string, sanitizeKey: string -> string,
                    sanitizeText: string -> string, sanitizeTextarea: string -> string) returns (imported: bool)
    modifies settings, templates, grants
    ensures imported
    ensures settings.stored == if data.settings.Some? then SanitizeSettings(data.settings.value, sanitizeKey)
                               else old(settings.stored)
    ensures data.templates.None? || data.templates.value == [] ==> templates.raw == old(templates.raw)
    ensures data.templates.Some? && data.templates.value != [] ==>
      templates.raw == Some(SaveAll(old(templates.Templates()), data.templates.value, uuidAt, now,
                                    sanitizeText, sanitizeTextarea, sanitizeKey, |data.templates.value|))
    ensures Grants(grants.meta, grants.schedules) ==
      if data.userAccess.Some?
      then ImportUsers(Grants(old(grants.meta), old(grants.schedules)), data.userAccess.value, settings.stored,
                       byLogin, byEmail, |data.userAccess.value|)
      else Grants(old(grants.meta), old(grants.schedules))
  {
    if data.settings.Some? {
      settings.Save(data.settings.value, sanitizeKey);
    }
    if data.templates.Some? {
      ImportTemplates(templates, data.templates.value, uuidAt, now, sanitizeText, sanitizeTextarea, sanitizeKey);
    }
    if data.userAccess.Some? {
      ImportUserAccess(grants, data.userAccess.value, settings.stored, byLogin, byEmail);
    }
    return true;
  }

  /** The template part of import_data. */
  method ImportTemplates(templates: AccessTemplates.TemplateStore, entries: Assoc<AccessTemplates.TemplateInput>,
                         uuidAt: nat -> string, now: string, sanitizeText: string -> string,
                         sanitizeTextarea: string -> string, sanitizeKey: string -> string)
    modifies templates
    ensures entries == [] ==> templates.raw == old(templates.raw)
    ensures entries != [] ==>
      templates.raw == Some(SaveAll(old(templates.Templates()), entries, uuidAt, now,
                                    sanitizeText, sanitizeTextarea, sanitizeKey, |entries|))
  {
    var start := templates.Templates();
    for i := 0 to |entries|
      invariant i == 0 ==> templates.raw == old(templates.raw)
      invariant i > 0 ==> templates.raw == Some(SaveAll(start, entries, uuidAt, now, sanitizeText,
                                                        sanitizeTextarea, sanitizeKey, i))
    {
      var (templateId, template) := entries[i];
      var _ := templates.SaveTemplate(templateId, template, uuidAt(i), now, sanitizeText, sanitizeTextarea, sanitizeKey);
    }
  }

  /** The user part of import_data: entries whose user is not found are skipped. */
  method ImportUserAccess(grants: UserMeta.GrantStore, entries: Assoc<UserData>, stored: Options,
                          byLogin: ByLogin, byEmail: ByEmail)
    modifies grants
    ensures Grants(grants.meta, grants.schedules) ==
      ImportUsers(Grants(old(grants.meta), old(grants.schedules)), entries, stored, byLogin, byEmail, |entries|)
  {
    for i := 0 to |entries|
      invariant Grants(grants.meta, grants.schedules) ==
        ImportUsers(Grants(old(grants.meta), old(grants.schedules)), entries, stored, byLogin, byEmail, i)
    {
      var (login, userData) := entries[i];
      var user := ResolveUser(login, userData, byLogin, byEmail);
      if user.None? {
        continue;
      }
      ImportUserData(grants, user.value.id, userData, stored);
    }
  }

  /** The writes of one user's entry. */
  method ImportUserData(grants: UserMeta.GrantStore, userId: int, userData: UserData, stored: Options)
    modifies grants
    ensures Grants(grants.meta, grants.schedules) ==
      ImportUser(Grants(old(grants.meta), old(grants.schedules)), userId, userData, stored)
  {
    ImportFixedData(grants, userId, userData);
    ImportTypesData(grants, userId, userData, TypeList(stored));
    ImportTaxonomiesData(grants, userId, userData, TaxonomyList(stored));
  }

  /** The pages, posts, media and schedule of one user's entry. */
  method ImportFixedData(grants: UserMeta.GrantStore, userId: int, userData: UserData)
    modifies grants
    ensures Grants(grants.meta, grants.schedules) == ImportFixed(Grants(old(grants.meta), old(grants.schedules)), userId, userData)
  {
    var pages := IdsAt(userData, "pages");
    if pages.Some? {
      grants.SetAllowedPages(userId, pages.value);
    }
    var posts := IdsAt(userData, "posts");
    if posts.Some? {
      grants.SetAllowedPosts(userId, posts.value);
    }
    var media := IdsAt(userData, "media");
    if media.Some? {
      grants.SetAllowedMedia(userId, media.value);
    }
    var schedule := ScheduleAt(userData);
    if schedule.Some? {
      grants.SetSchedule(userId, schedule.value);
    }
  }

  /** The custom post type loop of one user's entry; page and post are skipped. */
  method ImportTypesData(grants: UserMeta.GrantStore, userId: int, userData: UserData, types: seq<string>)
    modifies grants
    ensures Grants(grants.meta, grants.schedules) ==
      ImportTypes(Grants(old(grants.meta), old(grants.schedules)), userId, userData, types, |types|)
  {
    for i := 0 to |types|
      invariant Grants(grants.meta, grants.schedules) ==
        ImportTypes(Grants(old(grants.meta), old(grants.schedules)), userId, userData, types, i)
    {
      if types[i] in ["page", "post"] {
        continue;
      }
      var ids := IdsAt(userData, types[i]);
      if ids.Some? {
        grants.SetAllowedContent(userId, types[i], ids.value);
      }
    }
  }

  /** The taxonomy loop of one user's entry, each taxonomy under its tax_ key. */
  method ImportTaxonomiesData(grants: UserMeta.GrantStore, userId: int, userData: UserData, taxonomies: seq<string>)
    modifies grants
    ensures Grants(grants.meta, grants.schedules) ==
      ImportTaxonomies(Grants(old(grants.meta), old(grants.schedules)), userId, userData, taxonomies, |taxonomies|)
  {
    for i := 0 to |taxonomies|
      invariant Grants(grants.meta, grants.schedules) ==
        ImportTaxonomies(Grants(old(grants.meta), old(grants.schedules)), userId, userData, taxonomies, i)
    {
      var ids := IdsAt(userData, "tax_" + taxonomies[i]);
      if ids.Some? {
        grants.SetAllowedTerms(userId, taxonomies[i], ids.value);
      }
    }
  }

  // ---------------------------------------------------------------------
  // Properties

  /** A key the export writes for a custom type: enabled, and neither page nor post. */
  predicate ExportedType(types: seq<string>, n: nat, k: string)
    requires n <= |types|
  {
    k !in ["page", "post"] && exists i :: 0 <= i < n && types[i] == k
  }

  lemma {:induction false} ExportTypesLookup(meta: UserMeta.Meta, userId: int, types: seq<string>, base: UserData,
                                             n: nat, k: string)
    requires n <= |types|
    ensures Lookup(ExportTypes(meta, userId, types, base, n), k) ==
      if ExportedType(types, n, k) then Some(Ids(AsScalars(UserMeta.ReadIds(meta, userId, UserMeta.ContentKey(k)))))
      else Lookup(base, k)
  {
    if n > 0 {
      ExportTypesLookup(meta, userId, types, base, n - 1, k);
      if types[n - 1] == k {
        assert ExportedType(types, n, k) <==> k !in ["page", "post"];
      } else {
        assert ExportedType(types, n, k) <==> ExportedType(types, n - 1, k);
      }
    }
  }

  /** A tax_ key is none of the fixed keys. */
  lemma TaxKeyIsNotFixed(taxonomy: string, k: string)
    requires !StartsWith(k, "tax_")
    ensures "tax_" + taxonomy != k
  {
    assert ("tax_" + taxonomy)[..4] == "tax_";
  }

  lemma {:induction false} ExportTaxonomiesLookup(meta: UserMeta.Meta, userId: int, taxonomies: seq<string>,
                                                  base: UserData, n: nat, k: string)
    requires n <= |taxonomies|
    requires !StartsWith(k, "tax_")
    ensures Lookup(ExportTaxonomies(meta, userId, taxonomies, base, n), k) == Lookup(base, k)
  {
    if n > 0 {
      TaxKeyIsNotFixed(taxonomies[n - 1], k);
      ExportTaxonomyStep(meta, userId, taxonomies, base, n, k);
      ExportTaxonomiesLookup(meta, userId, taxonomies, base, n - 1, k);
    }
  }

  lemma ExportTaxonomyStep(meta: UserMeta.Meta, userId: int, taxonomies: seq<string>, base: UserData, n: nat, k: string)
    requires 0 < n <= |taxonomies| && "tax_" + taxonomies[n - 1] != k
    ensures Lookup(ExportTaxonomies(meta, userId, taxonomies, base, n), k) ==
            Lookup(ExportTaxonomies(meta, userId, taxonomies, base, n - 1), k)
  {
    PutOther(ExportTaxonomies(meta, userId, taxonomies, base, n - 1), "tax_" + taxonomies[n - 1],
             Ids(AsScalars(UserMeta.ReadIds(meta, userId, UserMeta.Terms(taxonomies[n - 1])))), k);
  }

  /**
   * The exported entry holds the user's pages, posts, media and schedule
   * under their keys, unless an enabled custom type has the same name; and
   * each enabled custom type's list under its name, unless it begins with tax_.
   */
  lemma ExportUserLookup(g: Grants, user: Wp.User, stored: Options, k: string)
    requires !StartsWith(k, "tax_")
    ensures var entry := ExportUser(g, user, stored);
      var schedule := if user.id in g.schedules then g.schedules[user.id] else UserMeta.Schedule(None, None);
      && (!ExportedType(TypeList(stored), |TypeList(stored)|, k) ==>
            Lookup(entry, k) == Lookup(ExportBase(g.meta, schedule, user), k))
      && (ExportedType(TypeList(stored), |TypeList(stored)|, k) ==>
            Lookup(entry, k) == Some(Ids(AsScalars(UserMeta.ReadIds(g.meta, user.id, UserMeta.Content(k))))))
  {
    var schedule := if user.id in g.schedules then g.schedules[user.id] else UserMeta.Schedule(None, None);
    var types := TypeList(stored);
    var base := ExportBase(g.meta, schedule, user);
    ExportTypesLookup(g.meta, user.id, types, base, |types|, k);
    var withTypes := ExportTypes(g.meta, user.id, types, base, |types|);
    var taxonomies := TaxonomyList(stored);
    ExportTaxonomiesLookup(g.meta, user.id, taxonomies, withTypes, |taxonomies|, k);
  }

  /** A grant the import of an entry writes for its user: a list key that is set, for an enabled type or taxonomy. */
  predicate Touches(userData: UserData, grant: UserMeta.GrantKey, stored: Options) {
    match grant
    case Pages => IdsAt(userData, "pages").Some?
    case Posts => IdsAt(userData, "posts").Some?
    case Media => IdsAt(userData, "media").Some?
    case Content(t) => t in TypeList(stored) && t !in ["page", "post"] && IdsAt(userData, t).Some?
    case Terms(x) => x in TaxonomyList(stored) && IdsAt(userData, "tax_" + x).Some?
  }

  lemma {:induction false} ImportTypesFrame(g: Grants, userId: int, userData: UserData, types: seq<string>, n: nat,
                                            key: (int, UserMeta.GrantKey))
    requires n <= |types|
    requires key.0 == userId && key.1.Content? ==>
      key.1.postType !in types || key.1.postType in ["page", "post"] || IdsAt(userData, key.1.postType).None?
    ensures UserMeta.SameAt(ImportTypes(g, userId, userData, types, n).meta, g.meta, key)
    ensures ImportTypes(g, userId, userData, types, n).schedules == g.schedules
  {
    if n > 0 {
      ImportTypesFrame(g, userId, userData, types, n - 1, key);
    }
  }

  lemma {:induction false} ImportTaxonomiesFrame(g: Grants, userId: int, userData: UserData, taxonomies: seq<string>,
                                                 n: nat, key: (int, UserMeta.GrantKey))
    requires n <= |taxonomies|
    requires key.0 == userId && key.1.Terms? ==>
      key.1.taxonomy !in taxonomies || IdsAt(userData, "tax_" + key.1.taxonomy).None?
    ensures UserMeta.SameAt(ImportTaxonomies(g, userId, userData, taxonomies, n).meta, g.meta, key)
    ensures ImportTaxonomies(g, userId, userData, taxonomies, n).schedules == g.schedules
  {
    if n > 0 {
      ImportTaxonomiesFrame(g, userId, userData, taxonomies, n - 1, key);
    }
  }

  lemma ImportFixedFrame(g: Grants, userId: int, userData: UserData, stored: Options, key: (int, UserMeta.GrantKey))
    requires key.0 != userId || !Touches(userData, key.1, stored)
    ensures UserMeta.SameAt(ImportFixed(g, userId, userData).meta, g.meta, key)
    ensures key.0 != userId || ScheduleAt(userData).None? ==>
      (key.0 in ImportFixed(g, userId, userData).schedules <==> key.0 in g.schedules) &&
      (key.0 in g.schedules ==> ImportFixed(g, userId, userData).schedules[key.0] == g.schedules[key.0])
  {
    var g1 := ImportKey(g, userId, userData, "pages", UserMeta.Pages);
    var g2 := ImportKey(g1, userId, userData, "posts", UserMeta.Posts);
    ImportKeyFrame(g, userId, userData, "pages", UserMeta.Pages, key);
    ImportKeyFrame(g1, userId, userData, "posts", UserMeta.Posts, key);
    ImportKeyFrame(g2, userId, userData, "media", UserMeta.Media, key);
  }

  /** One list key writes only its own grant of the user, and only when the entry sets it. */
  lemma ImportKeyFrame(g: Grants, userId: int, userData: UserData, k: string, grant: UserMeta.GrantKey,
                       key: (int, UserMeta.GrantKey))
    requires key != (userId, grant) || IdsAt(userData, k).None?
    ensures UserMeta.SameAt(ImportKey(g, userId, userData, k, grant).meta, g.meta, key)
    ensures ImportKey(g, userId, userData, k, grant).schedules == g.schedules
  {
  }

  /**
   * Importing an entry changes nothing of other users, and of its user only
   * the grants whose keys the entry sets (for enabled types and taxonomies),
   * and the schedule only when the entry has one.
   */
  lemma ImportUserFrame(g: Grants, userId: int, userData: UserData, stored: Options, key: (int, UserMeta.GrantKey))
    requires key.0 != userId || !Touches(userData, key.1, stored)
    ensures UserMeta.SameAt(ImportUser(g, userId, userData, stored).meta, g.meta, key)
    ensures key.0 != userId || ScheduleAt(userData).None? ==>
      (key.0 in ImportUser(g, userId, userData, stored).schedules <==> key.0 in g.schedules) &&
      (key.0 in g.schedules ==> ImportUser(g, userId, userData, stored).schedules[key.0] == g.schedules[key.0])
  {
    ImportFixedFrame(g, userId, userData, stored, key);
    ImportUserMetaFrame(g, userId, userData, stored, key);
    ImportUserSchedules(g, userId, userData, stored);
  }

  /** After the fixed keys, the type and taxonomy steps write only enabled, set keys of the user. */
  lemma ImportUserMetaFrame(g: Grants, userId: int, userData: UserData, stored: Options, key: (int, UserMeta.GrantKey))
    requires key.0 != userId || !Touches(userData, key.1, stored)
    ensures UserMeta.SameAt(ImportUser(g, userId, userData, stored).meta, ImportFixed(g, userId, userData).meta, key)
  {
    var g4 := ImportFixed(g, userId, userData);
    var types := TypeList(stored);
    var taxonomies := TaxonomyList(stored);
    if key.0 == userId && key.1.Content? {
      assert key.1.postType !in types || key.1.postType in ["page", "post"] || IdsAt(userData, key.1.postType).None?;
    }
    if key.0 == userId && key.1.Terms? {
      assert key.1.taxonomy !in taxonomies || IdsAt(userData, "tax_" + key.1.taxonomy).None?;
    }
    ImportTypesFrame(g4, userId, userData, types, |types|, key);
    var g5 := ImportTypes(g4, userId, userData, types, |types|);
    ImportTaxonomiesFrame(g5, userId, userData, taxonomies, |taxonomies|, key);
  }

  /** Only the fixed part of an entry sets a schedule. */
  lemma ImportUserSchedules(g: Grants, userId: int, userData: UserData, stored: Options)
    ensures ImportUser(g, userId, userData, stored).schedules == ImportFixed(g, userId, userData).schedules
  {
    var g4 := ImportFixed(g, userId, userData);
    var types := TypeList(stored);
    ImportTypesFrame(g4, userId, userData, types, |types|, (userId, UserMeta.Pages));
    var g5 := ImportTypes(g4, userId, userData, types, |types|);
    ImportTaxonomiesFrame(g5, userId, userData, TaxonomyList(stored), |TaxonomyList(stored)|, (userId, UserMeta.Pages));
  }

  /** No entry of the first n resolves to user v. */
  predicate NoEntryFor(entries: Assoc<UserData>, byLogin: ByLogin, byEmail: ByEmail, v: int, n: nat)
    requires n <= |entries|
  {
    forall i :: 0 <= i < n ==>
      ResolveUser(entries[i].0, entries[i].1, byLogin, byEmail).None? ||
      ResolveUser(entries[i].0, entries[i].1, byLogin, byEmail).value.id != v
  }

  /** A user no entry resolves to keeps every grant and the schedule. */
  lemma {:induction false} ImportSkipsOthers(g: Grants, entries: Assoc<UserData>, stored: Options, byLogin: ByLogin,
                                             byEmail: ByEmail, n: nat, v: int, grant: UserMeta.GrantKey)
    requires n <= |entries| && NoEntryFor(entries, byLogin, byEmail, v, n)
    ensures UserMeta.SameAt(ImportUsers(g, entries, stored, byLogin, byEmail, n).meta, g.meta, (v, grant))
    ensures (v in ImportUsers(g, entries, stored, byLogin, byEmail, n).schedules <==> v in g.schedules)
    ensures v in g.schedules ==> ImportUsers(g, entries, stored, byLogin, byEmail, n).schedules[v] == g.schedules[v]
  {
    if n > 0 {
      ImportSkipsOthers(g, entries, stored, byLogin, byEmail, n - 1, v, grant);
      var user := ResolveUser(entries[n - 1].0, entries[n - 1].1, byLogin, byEmail);
      if user.Some? {
        var prev := ImportUsers(g, entries, stored, byLogin, byEmail, n - 1);
        assert 0 <= n - 1 < n;
        ImportUserFrame(prev, user.value.id, entries[n - 1].1, stored, (v, grant));
      }
    }
  }

  /** The fixed keys the export writes next to the custom type keys. */
  predicate NoTypeShadowsFixedKeys(stored: Options) {
    forall i :: 0 <= i < |TypeList(stored)| ==> TypeList(stored)[i] !in ["pages", "posts", "media", "schedule"]
  }

  lemma NotExportedFixedKey(stored: Options, k: string)
    requires NoTypeShadowsFixedKeys(stored) && k in ["pages", "posts", "media", "schedule"]
    ensures !ExportedType(TypeList(stored), |TypeList(stored)|, k)
  {
  }

  /** A fixed key of the entry holds what the fixed part put there. */
  lemma FixedKeyLookup(g: Grants, user: Wp.User, stored: Options, k: string)
    requires NoTypeShadowsFixedKeys(stored) && k in ["pages", "posts", "media", "schedule"]
    ensures Lookup(ExportUser(g, user, stored), k) ==
      Lookup(ExportBase(g.meta, if user.id in g.schedules then g.schedules[user.id] else UserMeta.Schedule(None, None), user), k)
  {
    NotExportedFixedKey(stored, k);
    assert k[0] != 't' && k[..4][0] == k[0];
    ExportUserLookup(g, user, stored, k);
  }

  /** The fixed part holds the user's lists and schedule under their keys. */
  lemma BaseLookup(meta: UserMeta.Meta, schedule: UserMeta.Schedule, user: Wp.User)
    ensures var base := ExportBase(meta, schedule, user);
      && Lookup(base, "pages") == Some(Ids(AsScalars(UserMeta.ReadIds(meta, user.id, UserMeta.Pages))))
      && Lookup(base, "posts") == Some(Ids(AsScalars(UserMeta.ReadIds(meta, user.id, UserMeta.Posts))))
      && Lookup(base, "media") == Some(Ids(AsScalars(UserMeta.ReadIds(meta, user.id, UserMeta.Media))))
      && Lookup(base, "schedule") == Some(Dates(schedule.start, schedule.end))
  {
    var base := ExportBase(meta, schedule, user);
    LookupFirst(base, "pages", 2);
    LookupFirst(base, "posts", 3);
    LookupFirst(base, "media", 4);
    LookupFirst(base, "schedule", 5);
  }

  /** The exported entry's fixed keys hold the user's pages, posts, media and schedule. */
  lemma ExportedFixedKeys(g: Grants, user: Wp.User, stored: Options)
    requires NoTypeShadowsFixedKeys(stored)
    ensures var entry := ExportUser(g, user, stored);
      && IdsAt(entry, "pages") == Some(AsScalars(UserMeta.ReadIds(g.meta, user.id, UserMeta.Pages)))
      && IdsAt(entry, "posts") == Some(AsScalars(UserMeta.ReadIds(g.meta, user.id, UserMeta.Posts)))
      && IdsAt(entry, "media") == Some(AsScalars(UserMeta.ReadIds(g.meta, user.id, UserMeta.Media)))
      && ScheduleAt(entry) == Some(if user.id in g.schedules then g.schedules[user.id] else UserMeta.Schedule(None, None))
  {
    var schedule := if user.id in g.schedules then g.schedules[user.id] else UserMeta.Schedule(None, None);
    BaseLookup(g.meta, schedule, user);
    FixedKeyLookup(g, user, stored, "pages");
    FixedKeyLookup(g, user, stored, "posts");
    FixedKeyLookup(g, user, stored, "media");
    FixedKeyLookup(g, user, stored, "schedule");
  }

  /** Importing an entry stores its pages, posts and media lists and its schedule for the user. */
  lemma ImportedFixedKeys(g: Grants, userId: int, entry: UserData, stored: Options,
                          pages: seq<Scalar>, posts: seq<Scalar>, media: seq<Scalar>, schedule: UserMeta.Schedule)
    requires IdsAt(entry, "pages") == Some(pages) && IdsAt(entry, "posts") == Some(posts)
    requires IdsAt(entry, "media") == Some(media) && ScheduleAt(entry) == Some(schedule)
    ensures var after := ImportUser(g, userId, entry, stored);
      && UserMeta.ReadIds(after.meta, userId, UserMeta.Pages) == DropZeros(IntvalAll(pages))
      && UserMeta.ReadIds(after.meta, userId, UserMeta.Posts) == DropZeros(IntvalAll(posts))
      && UserMeta.ReadIds(after.meta, userId, UserMeta.Media) == IntvalAll(media)
      && userId in after.schedules && after.schedules[userId] == schedule
  {
    var g1 := ImportKey(g, userId, entry, "pages", UserMeta.Pages);
    var g2 := ImportKey(g1, userId, entry, "posts", UserMeta.Posts);
    var g3 := ImportKey(g2, userId, entry, "media", UserMeta.Media);
    var g4 := g3.(schedules := g3.schedules[userId := schedule]);
    var types := TypeList(stored);
    var taxonomies := TaxonomyList(stored);
    var g5 := ImportTypes(g4, userId, entry, types, |types|);
    ImportTypesFrame(g4, userId, entry, types, |types|, (userId, UserMeta.Pages));
    ImportTaxonomiesFrame(g5, userId, entry, taxonomies, |taxonomies|, (userId, UserMeta.Pages));
    ImportTypesFrame(g4, userId, entry, types, |types|, (userId, UserMeta.Posts));
    ImportTaxonomiesFrame(g5, userId, entry, taxonomies, |taxonomies|, (userId, UserMeta.Posts));
    ImportTypesFrame(g4, userId, entry, types, |types|, (userId, UserMeta.Media));
    ImportTaxonomiesFrame(g5, userId, entry, taxonomies, |taxonomies|, (userId, UserMeta.Media));
  }

  /**
   * Exporting a user and importing the entry on the same site gives the
   * user back the same pages and posts (zeros dropped), the same media and
   * the same schedule, provided no enabled custom type is named like one of
   * those keys.
   */
  lemma ExportImportRoundTrip(g: Grants, user: Wp.User, stored: Options)
    requires NoTypeShadowsFixedKeys(stored)
    ensures var after := ImportUser(g, user.id, ExportUser(g, user, stored), stored);
      && UserMeta.ReadIds(after.meta, user.id, UserMeta.Pages) == DropZeros(UserMeta.ReadIds(g.meta, user.id, UserMeta.Pages))
      && UserMeta.ReadIds(after.meta, user.id, UserMeta.Posts) == DropZeros(UserMeta.ReadIds(g.meta, user.id, UserMeta.Posts))
      && UserMeta.ReadIds(after.meta, user.id, UserMeta.Media) == UserMeta.ReadIds(g.meta, user.id, UserMeta.Media)
      && user.id in after.schedules
      && after.schedules[user.id] == if user.id in g.schedules then g.schedules[user.id] else UserMeta.Schedule(None, None)
  {
    var pages := UserMeta.ReadIds(g.meta, user.id, UserMeta.Pages);
    var posts := UserMeta.ReadIds(g.meta, user.id, UserMeta.Posts);
    var media := UserMeta.ReadIds(g.meta, user.id, UserMeta.Media);
    ExportedFixedKeys(g, user, stored);
    IntvalAllOfInts(pages);
    IntvalAllOfInts(posts);
    IntvalAllOfInts(media);
    ImportedFixedKeys(g, user.id, ExportUser(g, user, stored), stored,
                      AsScalars(pages), AsScalars(posts), AsScalars(media),
                      if user.id in g.schedules then g.schedules[user.id] else UserMeta.Schedule(None, None));
  }
}
