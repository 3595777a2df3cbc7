/**
 * The plugin's settings option: built-in defaults merged with the stored
 * values, the get(key, default) lookup, the sanitiser applied on save, and
 * the two questions every access rule asks of the settings: is the current
 * user restricted, and is restriction enabled for a post type.
 */
module Settings {
  import opened PhpArrays
  import Wp

  /** A setting value as PHP holds it. */
  datatype Value = Null | Bool(b: bool) | Int(i: int) | Str(s: string) | List(items: seq<string>)

  /** PHP empty(): null, false, 0, "", "0" and the empty array. */
  predicate IsEmpty(v: Value) {
    match v
    case Null => true
    case Bool(b) => !b
    case Int(i) => i == 0
    case Str(s) => s == "" || s == "0"
    case List(items) => items == []
  }

  /** A value used as an if-condition. */
  predicate Truthy(v: Value) { !IsEmpty(v) }

  /** The items of a list value; any other value holds no item. */
  function AsList(v: Value): (r: seq<string>)
    ensures v.List? ==> r == v.items
    ensures !v.List? ==> r == []
  {
    if v.List? then v.items else []
  }

  /** The keys of the settings option (rpa_settings); Other is any key the plugin does not define. */
  datatype Key =
    | RestrictedRoles | EnabledPostTypes | EnabledTaxonomies | MediaRestriction
    | WooProducts | WooOrders | WooCoupons | ElementorTemplates | ElementorThemeBuilder
    | Other(name: string)

  /** The settings option as an associative array. */
  type Options = map<Key, Value>

  /** The flags sanitize_settings turns into booleans. */
  const FlagKeys: set<Key> :=
    {MediaRestriction, WooProducts, WooOrders, WooCoupons, ElementorTemplates, ElementorThemeBuilder}

  /** The built-in defaults. */
  const Defaults: Options := map[
    RestrictedRoles := List(["editor"]),
    EnabledPostTypes := List(["page", "post"]),
    EnabledTaxonomies := List([]),
    MediaRestriction := Bool(true),
    WooProducts := Bool(false),
    WooOrders := Bool(false),
    WooCoupons := Bool(false),
    ElementorTemplates := Bool(false),
    ElementorThemeBuilder := Bool(false)
  ]

  /** get_settings: wp_parse_args(stored, defaults). */
  function GetSettings(stored: Options): (r: Options)
    ensures forall k :: k in stored ==> k in r && r[k] == stored[k]
    ensures forall k :: k in Defaults && k !in stored ==> k in r && r[k] == Defaults[k]
    ensures forall k :: k in r ==> k in stored || k in Defaults
  {
    Defaults + stored
  }

  /** get(key, default): a set value, else a non-null default, else the built-in default. */
  function Get(stored: Options, key: Key, default: Value): Value {
    var settings := GetSettings(stored);
    if key in settings && settings[key] != Null then settings[key]
    else if default != Null then default
    else if key in Defaults then Defaults[key]
    else Null
  }

  /** The precedence of get, stated on the stored option. */
  lemma GetPrecedence(stored: Options, key: Key, default: Value)
    ensures key in stored && stored[key] != Null ==> Get(stored, key, default) == stored[key]
    ensures key !in stored && key in Defaults ==> Get(stored, key, default) == Defaults[key]
    ensures (key !in stored || stored[key] == Null) && default != Null ==>
      (key in Defaults && key !in stored) || Get(stored, key, default) == default
    ensures (key !in stored || stored[key] == Null) && default == Null ==>
      Get(stored, key, default) == if key in Defaults then Defaults[key] else Null
  {
  }

  /** With nothing stored, get returns the built-in default of every known key. */
  lemma GetDefaultsWhenEmpty(key: Key, default: Value)
    requires key in Defaults
    ensures Get(map[], key, default) == Defaults[key]
  {
  }

  /** array_map('sanitize_key', $list). */
  function MapKeys(items: seq<string>, sanitizeKey: string -> string): (r: seq<string>)
    ensures |r| == |items|
    ensures forall i :: 0 <= i < |items| ==> r[i] == sanitizeKey(items[i])
  {
    if items == [] then [] else [sanitizeKey(items[0])] + MapKeys(items[1..], sanitizeKey)
  }

  /** !empty($settings[key]) */
  predicate FlagSet(input: Options, key: Key) {
    key in input && !IsEmpty(input[key])
  }

  /** sanitize_settings: the option as it is saved. */
  function SanitizeSettings(input: Options, sanitizeKey: string -> string): (r: Options)
    ensures r.Keys == Defaults.Keys
    ensures forall k :: k in FlagKeys ==> r[k] == Bool(FlagSet(input, k))
    ensures r[RestrictedRoles] ==
      if RestrictedRoles in input && input[RestrictedRoles].List?
      then List(MapKeys(input[RestrictedRoles].items, sanitizeKey))
      else Defaults[RestrictedRoles]
    ensures r[EnabledPostTypes] ==
      if EnabledPostTypes in input && input[EnabledPostTypes].List?
      then List(MapKeys(input[EnabledPostTypes].items, sanitizeKey))
      else Defaults[EnabledPostTypes]
    ensures r[EnabledTaxonomies] ==
      if EnabledTaxonomies in input && input[EnabledTaxonomies].List?
      then List(MapKeys(input[EnabledTaxonomies].items, sanitizeKey))
      else List([])
  {
    map k | k in Defaults.Keys :: SanitizedValue(input, k, sanitizeKey)
  }

  /** The value sanitize_settings saves under one key. */
  function SanitizedValue(input: Options, key: Key, sanitizeKey: string -> string): Value {
    match key
    case RestrictedRoles | EnabledPostTypes =>
      if key in input && input[key].List? then List(MapKeys(input[key].items, sanitizeKey)) else Defaults[key]
    case EnabledTaxonomies =>
      if key in input && input[key].List? then List(MapKeys(input[key].items, sanitizeKey)) else List([])
    case Other(_) => Null
    case _ => Bool(FlagSet(input, key))
  }

  /** Saving an empty input stores the default lists and turns every flag off. */
  lemma SanitizeEmptyInput(sanitizeKey: string -> string)
    ensures var r := SanitizeSettings(map[], sanitizeKey);
      r[RestrictedRoles] == List(["editor"]) && r[EnabledPostTypes] == List(["page", "post"]) &&
      r[EnabledTaxonomies] == List([]) && forall k :: k in FlagKeys ==> r[k] == Bool(false)
  {
  }

  /** After a save, get reads back every saved value: none of them is null. */
  lemma GetAfterSave(input: Options, sanitizeKey: string -> string, key: Key, default: Value)
    requires key in Defaults
    ensures Get(SanitizeSettings(input, sanitizeKey), key, default) == SanitizeSettings(input, sanitizeKey)[key]
  {
  }

  /** The option, as save_settings writes it. */
  class SettingsOption {
    var stored: Options

    constructor ()
      ensures stored == map[]
    {
      stored := map[];
    }

    /** save_settings: the sanitised input replaces the option. */
    method Save(input: Options, sanitizeKey: string -> string)
      modifies this
      ensures stored == SanitizeSettings(input, sanitizeKey)
    {
      stored := SanitizeSettings(input, sanitizeKey);
    }
  }

  /** The restricted roles as is_role_restricted reads them. */
  function RestrictedRoleList(stored: Options): seq<string> {
    AsList(Get(stored, RestrictedRoles, List([])))
  }

  /** is_role_restricted: strict membership in restricted_roles. */
  predicate IsRoleRestricted(stored: Options, role: string) {
    role in RestrictedRoleList(stored)
  }

  /** With nothing stored, exactly the editor role is restricted. */
  lemma OnlyEditorsByDefault(role: string)
    ensures IsRoleRestricted(map[], role) <==> role == "editor"
  {
  }

  /** is_current_user_restricted: walks the user's roles until one is restricted. */
  method IsCurrentUserRestricted(stored: Options, me: Wp.User) returns (r: bool)
    ensures r <==> !me.canManageOptions && Wp.Exists(me) &&
                   exists i :: 0 <= i < |me.roles| && IsRoleRestricted(stored, me.roles[i])
  {
    if me.canManageOptions {
      return false;
    }
    if !Wp.Exists(me) {
      return false;
    }
    var restricted := RestrictedRoleList(stored);
    for i := 0 to |me.roles|
      invariant forall j :: 0 <= j < i ==> !IsRoleRestricted(stored, me.roles[j])
    {
      if me.roles[i] in restricted {
        return true;
      }
    }
    return false;
  }

  /**
   * should_filter_user of the media filter and of both integrations: an
   * administrator never, otherwise exactly a restricted user. Its schedule
   * branch also answers true, so the schedule does not matter.
   */
  function ShouldFilterUser(me: Wp.User, restricted: bool, active: bool): (r: bool)
    ensures r <==> !me.canManageOptions && restricted
  {
    if me.canManageOptions then false
    else if !restricted then false
    else if !active then true
    else true
  }

  /** The settings flag that switches restriction on for an integration's post type. */
  function IntegrationFlag(postType: string): Option<Key> {
    match postType
    case "product" => Some(WooProducts)
    case "shop_order" => Some(WooOrders)
    case "shop_coupon" => Some(WooCoupons)
    case "elementor_library" => Some(ElementorTemplates)
    case "elementor-hf" => Some(ElementorThemeBuilder)
    case "elementor-thhf" => Some(ElementorThemeBuilder)
    case _ => None
  }

  /** The enabled_post_types list as the access rules read it. */
  function EnabledTypeList(stored: Options): seq<string> {
    AsList(Get(stored, EnabledPostTypes, List([])))
  }

  /** is_post_type_enabled: listed, or an integration type whose flag is on. */
  function IsPostTypeEnabled(stored: Options, postType: string): (r: bool)
    ensures r <==> postType in EnabledTypeList(stored) ||
                   (IntegrationFlag(postType).Some? && Truthy(Get(stored, IntegrationFlag(postType).value, Null)))
  {
    if postType in EnabledTypeList(stored) then true
    else if postType == "product" && Truthy(Get(stored, WooProducts, Null)) then true
    else if postType == "shop_order" && Truthy(Get(stored, WooOrders, Null)) then true
    else if postType == "shop_coupon" && Truthy(Get(stored, WooCoupons, Null)) then true
    else if postType == "elementor_library" && Truthy(Get(stored, ElementorTemplates, Null)) then true
    else if postType in ["elementor-hf", "elementor-thhf"] && Truthy(Get(stored, ElementorThemeBuilder, Null)) then true
    else false
  }

  /** With nothing stored, restriction covers exactly pages and posts. */
  lemma DefaultEnabledTypes(postType: string)
    ensures IsPostTypeEnabled(map[], postType) <==> postType == "page" || postType == "post"
  {
    GetDefaultsWhenEmpty(EnabledPostTypes, List([]));
    assert EnabledTypeList(map[]) == ["page", "post"];
    var flags := [WooProducts, WooOrders, WooCoupons, ElementorTemplates, ElementorThemeBuilder];
    forall i | 0 <= i < |flags|
      ensures !Truthy(Get(map[], flags[i], Null))
    {
      GetDefaultsWhenEmpty(flags[i], Null);
    }
    assert IntegrationFlag(postType).Some? ==> IntegrationFlag(postType).value in flags;
  }

  /** The five integration cases of is_post_type_enabled, one flag each. */
  lemma EnabledCases(stored: Options, postType: string, products: bool, orders: bool, coupons: bool,
                     templates: bool, themeBuilder: bool)
    requires products == Truthy(Get(stored, WooProducts, Null))
    requires orders == Truthy(Get(stored, WooOrders, Null))
    requires coupons == Truthy(Get(stored, WooCoupons, Null))
    requires templates == Truthy(Get(stored, ElementorTemplates, Null))
    requires themeBuilder == Truthy(Get(stored, ElementorThemeBuilder, Null))
    ensures IsPostTypeEnabled(stored, postType) <==>
      postType in EnabledTypeList(stored) || (postType == "product" && products) ||
      (postType == "shop_order" && orders) || (postType == "shop_coupon" && coupons) ||
      (postType == "elementor_library" && templates) ||
      ((postType == "elementor-hf" || postType == "elementor-thhf") && themeBuilder)
  {
  }

  /** get_all_enabled_post_types: the listed types plus the switched-on integration types, deduplicated. */
  method AllEnabledPostTypes(stored: Options) returns (types: seq<string>)
    ensures NoDup(types)
    ensures forall t :: t in types <==> IsPostTypeEnabled(stored, t)
  {
    var listed := EnabledTypeList(stored);
    var products := Truthy(Get(stored, WooProducts, Null));
    var orders := Truthy(Get(stored, WooOrders, Null));
    var coupons := Truthy(Get(stored, WooCoupons, Null));
    var templates := Truthy(Get(stored, ElementorTemplates, Null));
    var themeBuilder := Truthy(Get(stored, ElementorThemeBuilder, Null));
    var enabled := listed;
    if products {
      enabled := enabled + ["product"];
    }
    if orders {
      enabled := enabled + ["shop_order"];
    }
    if coupons {
      enabled := enabled + ["shop_coupon"];
    }
    if templates {
      enabled := enabled + ["elementor_library"];
    }
    if themeBuilder {
      enabled := enabled + ["elementor-hf", "elementor-thhf"];
    }
    forall t
      ensures t in enabled <==> IsPostTypeEnabled(stored, t)
    {
      EnabledCases(stored, t, products, orders, coupons, templates, themeBuilder);
    }
    types := Unique(enabled);
  }
}
