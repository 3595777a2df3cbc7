/**
 * The WP-CLI commands that change or report grants: grant and revoke
 * (set union and set difference on one grant), the user lookup every command
 * starts with, the checks of copy-access, and the status column of
 * list-users.
 */
module Cli {
  import opened PhpArrays
  import opened Settings
  import Wp
  import UserMeta

  /** explode, intval and array_filter: the non-zero IDs of a comma-separated argument. */
  function ParseIds(arg: string): (r: seq<int>)
    ensures 0 !in r
    ensures forall x :: x in r <==> x != 0 && x in ListIds(arg)
  {
    DropZeros(ListIds(arg))
  }

  /** Every character is whitespace in PHP's sense. */
  predicate AllSpaces(s: string) {
    s == [] || (IsSpace(s[0]) && AllSpaces(s[1..]))
  }

  /**
   * is_numeric (PHP 8), for the strings the model covers: optional
   * whitespace, an optional sign, at least one digit, then optional
   * whitespace.
   */
  predicate IsNumeric(s: string) {
    DigitsThenSpaces(Unsigned(SkipSpaces(s)))
  }

  /** What follows an optional leading sign. */
  function Unsigned(t: string): (d: string)
    ensures t != [] && (t[0] == '-' || t[0] == '+') ==> d == t[1..]
    ensures !(t != [] && (t[0] == '-' || t[0] == '+')) ==> d == t
  {
    if t != [] && (t[0] == '-' || t[0] == '+') then t[1..] else t
  }

  /** At least one digit, then more digits, then only whitespace. */
  predicate DigitsThenSpaces(d: string) {
    d != [] && IsDigit(d[0]) && NumericTail(d[1..])
  }

  /** Digits, then only whitespace (either part may be empty). */
  predicate NumericTail(d: string) {
    AllSpaces(d) || (IsDigit(d[0]) && NumericTail(d[1..]))
  }

  /** get_user_by('id', …) and get_user_by('login', …), as WordPress answers them. */
  type ById = int -> Option<Wp.User>
  type ByLogin = string -> Option<Wp.User>

  /** get_user: by ID when the identifier is numeric, by login otherwise. */
  function GetUser(identifier: string, byId: ById, byLogin: ByLogin): (r: Option<Wp.User>)
    ensures IsNumeric(identifier) ==> r == byId(Intval(identifier))
    ensures !IsNumeric(identifier) ==> r == byLogin(identifier)
  {
    if IsNumeric(identifier) then byId(Intval(identifier)) else byLogin(identifier)
  }

  /** A string of digits names the user with that ID. */
  lemma GetUserByDigits(identifier: string, byId: ById, byLogin: ByLogin)
    requires identifier != [] && AllDigits(identifier)
    ensures GetUser(identifier, byId, byLogin) == byId(DigitsValue(identifier))
  {
    assert identifier + [] == identifier;
    GetUserTrailingSpaces(identifier, [], byId, byLogin);
  }

  /** Digits followed by whitespace, such as "5 ", still name the user with that ID. */
  lemma GetUserTrailingSpaces(digits: string, spaces: string, byId: ById, byLogin: ByLogin)
    requires digits != [] && AllDigits(digits) && AllSpaces(spaces)
    ensures GetUser(digits + spaces, byId, byLogin) == byId(DigitsValue(digits))
  {
    NumericDigitsThenSpaces(digits, spaces);
    IntvalDigitsThenSpaces(digits, spaces);
  }

  /** Digits then whitespace pass is_numeric. */
  lemma NumericDigitsThenSpaces(digits: string, spaces: string)
    requires digits != [] && AllDigits(digits) && AllSpaces(spaces)
    ensures IsNumeric(digits + spaces)
  {
    var s := digits + spaces;
    assert s[0] == digits[0];
    assert s[1..] == digits[1..] + spaces;
    TailOfDigitsAndSpaces(digits[1..], spaces);
    NumericFromDigit(s);
  }

  /** A string that starts with a digit and goes on as a numeric tail is numeric. */
  lemma NumericFromDigit(s: string)
    requires s != [] && IsDigit(s[0]) && NumericTail(s[1..])
    ensures IsNumeric(s)
  {
    assert SkipSpaces(s) == s;
    assert Unsigned(s) == s;
  }

  /** intval of digits then whitespace is the value of the digits. */
  lemma IntvalDigitsThenSpaces(digits: string, spaces: string)
    requires digits != [] && AllDigits(digits) && AllSpaces(spaces)
    ensures Intval(digits + spaces) == DigitsValue(digits)
  {
    var s := digits + spaces;
    assert s[0] == digits[0];
    LeadingDigitsBeforeSpaces(digits, spaces);
    IntvalFromDigit(s);
  }

  /** intval of a string that starts with a digit is the value of its digit run. */
  lemma IntvalFromDigit(s: string)
    requires s != [] && IsDigit(s[0])
    ensures Intval(s) == DigitsValue(LeadingDigits(s))
  {
    assert !IsSpace(s[0]) && s[0] != '-' && s[0] != '+';
    assert SkipSpaces(s) == s;
  }

  /** Digits then whitespace is a numeric tail. */
  lemma {:induction false} TailOfDigitsAndSpaces(digits: string, spaces: string)
    requires AllDigits(digits) && AllSpaces(spaces)
    ensures NumericTail(digits + spaces)
  {
    if digits != [] {
      assert (digits + spaces)[1..] == digits[1..] + spaces;
      TailOfDigitsAndSpaces(digits[1..], spaces);
    } else {
      assert digits + spaces == spaces;
    }
  }

  /** The digit run of digits followed by whitespace is the digits. */
  lemma {:induction false} LeadingDigitsBeforeSpaces(digits: string, spaces: string)
    requires AllDigits(digits) && AllSpaces(spaces)
    ensures LeadingDigits(digits + spaces) == digits
  {
    if digits == [] {
      assert digits + spaces == spaces;
    } else {
      assert (digits + spaces)[1..] == digits[1..] + spaces;
      LeadingDigitsBeforeSpaces(digits[1..], spaces);
    }
  }

  /** An identifier with a lower-case letter in it is looked up as a login. */
  lemma GetUserByLogin(identifier: string, byId: ById, byLogin: ByLogin, k: nat)
    requires k < |identifier| && 'a' <= identifier[k] <= 'z'
    ensures GetUser(identifier, byId, byLogin) == byLogin(identifier)
  {
    LetterNotNumeric(identifier, k);
  }

  /** A lower-case letter anywhere makes a string non-numeric. */
  lemma LetterNotNumeric(s: string, k: nat)
    requires k < |s| && 'a' <= s[k] <= 'z'
    ensures !IsNumeric(s)
  {
    SkipSpacesSuffix(s);
    var t := SkipSpaces(s);
    var off := |s| - |t|;
    assert k >= off;
    assert t[k - off] == s[k];
    var d := Unsigned(t);
    var j: nat := if d == t then k - off else k - off - 1;
    assert d[j] == s[k];
    LetterNotDigits(d, j);
  }

  /** A lower-case letter makes a string fail the digits-then-whitespace test. */
  lemma LetterNotDigits(d: string, j: nat)
    requires j < |d| && 'a' <= d[j] <= 'z'
    ensures !DigitsThenSpaces(d)
  {
    if j > 0 {
      assert d[1..][j - 1] == d[j];
      LetterNotInTail(d[1..], j - 1);
    }
  }

  /** A lower-case letter makes a string neither all whitespace nor a numeric tail. */
  lemma {:induction false} LetterNotInTail(d: string, j: nat)
    requires j < |d| && 'a' <= d[j] <= 'z'
    ensures !AllSpaces(d) && !NumericTail(d)
    decreases j
  {
    if j > 0 {
      assert d[1..][j - 1] == d[j];
      LetterNotInTail(d[1..], j - 1);
    }
  }

  /** SkipSpaces drops a run of leading spaces. */
  lemma {:induction false} SkipSpacesSuffix(s: string)
    ensures |SkipSpaces(s)| <= |s| && SkipSpaces(s) == s[|s| - |SkipSpaces(s)|..]
    ensures forall k :: 0 <= k < |s| - |SkipSpaces(s)| ==> IsSpace(s[k])
  {
    if s != [] && IsSpace(s[0]) {
      SkipSpacesSuffix(s[1..]);
    }
  }

  /** The grant a content-type argument names: page, post and media, or a listed post type. */
  function GrantFor(contentType: string, stored: Options): (r: Option<UserMeta.GrantKey>)
    ensures contentType == "page" ==> r == Some(UserMeta.Pages)
    ensures contentType == "post" ==> r == Some(UserMeta.Posts)
    ensures contentType == "media" ==> r == Some(UserMeta.Media)
    ensures contentType !in ["page", "post", "media"] ==>
      r == if contentType in AsList(Get(stored, EnabledPostTypes, List([])))
           then Some(UserMeta.Content(contentType)) else None
    ensures r.Some? && r.value.Content? ==> r.value.postType !in ["page", "post"]
    ensures r.Some? && r.value.Content? ==> r.value.postType == contentType && IsPostTypeEnabled(stored, contentType)
  {
    match contentType
    case "page" => Some(UserMeta.Pages)
    case "post" => Some(UserMeta.Posts)
    case "media" => Some(UserMeta.Media)
    case _ =>
      if contentType in AsList(Get(stored, EnabledPostTypes, List([]))) then Some(UserMeta.Content(contentType))
      else None
  }

  const UserNotFound := "User not found."
  const NoValidIds := "No valid IDs provided."

  function UnknownType(contentType: string): string {
    "Unknown content type: " + contentType
  }

  /**
   * grant: adds the IDs to the user's grant of the content type and reports
   * how many were given; errors (user not found, no valid IDs, unknown type)
   * write nothing.
   */
  method Grant(store: UserMeta.GrantStore, identifier: string, contentType: string, idsArg: string,
               stored: Options, byId: ById, byLogin: ByLogin) returns (r: Result<nat, string>)
    modifies store
    ensures var user := GetUser(identifier, byId, byLogin);
      var ids := ParseIds(idsArg);
      var grant := GrantFor(contentType, stored);
      && (user.None? ==> r == Err(UserNotFound))
      && (user.Some? && ids == [] ==> r == Err(NoValidIds))
      && (user.Some? && ids != [] && grant.None? ==> r == Err(UnknownType(contentType)))
      && (r.Ok? <==> user.Some? && ids != [] && grant.Some?)
      && (r.Err? ==> store.meta == old(store.meta))
      && (r.Ok? ==> (r.value == |ids| &&
                     store.meta == UserMeta.Written(old(store.meta), user.value.id, grant.value,
                                           Union(UserMeta.ReadIds(old(store.meta), user.value.id, grant.value), ids))))
    ensures store.schedules == old(store.schedules)
  {
    var user := GetUser(identifier, byId, byLogin);
    if user.None? {
      return Err(UserNotFound);
    }
    var ids := ParseIds(idsArg);
    if ids == [] {
      return Err(NoValidIds);
    }
    var grant := GrantFor(contentType, stored);
    if grant.None? {
      return Err(UnknownType(contentType));
    }
    var existing := UserMeta.ReadIds(store.meta, user.value.id, grant.value);
    store.SetGrant(user.value.id, grant.value, Union(existing, ids));
    return Ok(|ids|);
  }

  /** What revoke reports: all access revoked, or the number of IDs given. */
  datatype Revoked = RevokedAll | RevokedIds(count: nat)

  /**
   * revoke: "all" (in any case) empties the user's grant of the content type;
   * otherwise the given IDs are removed from it. Errors write nothing.
   */
  method Revoke(store: UserMeta.GrantStore, identifier: string, contentType: string, idsArg: string,
                stored: Options, byId: ById, byLogin: ByLogin) returns (r: Result<Revoked, string>)
    modifies store
    ensures var user := GetUser(identifier, byId, byLogin);
      var grant := GrantFor(contentType, stored);
      && (user.None? ==> r == Err(UserNotFound))
      && (user.Some? && grant.None? ==> r == Err(UnknownType(contentType)))
      && (r.Err? ==> store.meta == old(store.meta))
      && (r.Ok? && ToLower(idsArg) == "all" ==>
            (r.value == RevokedAll && store.meta == UserMeta.Written(old(store.meta), user.value.id, grant.value, [])))
      && (r.Ok? && ToLower(idsArg) != "all" ==>
            (r.value == RevokedIds(|ParseIds(idsArg)|) &&
             store.meta == UserMeta.Written(old(store.meta), user.value.id, grant.value,
                                   Diff(UserMeta.ReadIds(old(store.meta), user.value.id, grant.value), ParseIds(idsArg)))))
    ensures r.Ok? <==> GetUser(identifier, byId, byLogin).Some? && GrantFor(contentType, stored).Some?
    ensures store.schedules == old(store.schedules)
  {
    var user := GetUser(identifier, byId, byLogin);
    if user.None? {
      return Err(UserNotFound);
    }
    var all := ToLower(idsArg) == "all";
    var grant := GrantFor(contentType, stored);
    if grant.None? {
      return Err(UnknownType(contentType));
    }
    if all {
      store.SetGrant(user.value.id, grant.value, []);
      return Ok(RevokedAll);
    }
    var ids := ParseIds(idsArg);
    var existing := UserMeta.ReadIds(store.meta, user.value.id, grant.value);
    store.SetGrant(user.value.id, grant.value, Diff(existing, ids));
    return Ok(RevokedIds(|ids|));
  }

  /** After a grant the user holds exactly the old IDs and the given ones (pages and posts: the non-zero old ones). */
  lemma GrantAdds(meta: UserMeta.Meta, userId: int, grant: UserMeta.GrantKey, arg: string, x: int)
    ensures x in UserMeta.ReadIds(UserMeta.Written(meta, userId, grant, Union(UserMeta.ReadIds(meta, userId, grant), ParseIds(arg))),
                                  userId, grant) <==>
      x in ParseIds(arg) || (x in UserMeta.ReadIds(meta, userId, grant) && (x != 0 || grant !in {UserMeta.Pages, UserMeta.Posts}))
  {
  }

  /** Granting the same IDs twice leaves the grant as granting them once. */
  lemma {:induction false} GrantIdempotent(meta: UserMeta.Meta, userId: int, grant: UserMeta.GrantKey, arg: string)
    ensures var once := UserMeta.Written(meta, userId, grant, Union(UserMeta.ReadIds(meta, userId, grant), ParseIds(arg)));
      UserMeta.Written(once, userId, grant, Union(UserMeta.ReadIds(once, userId, grant), ParseIds(arg))) == once
  {
    var ids := ParseIds(arg);
    var u := Union(UserMeta.ReadIds(meta, userId, grant), ids);
    var stored := UserMeta.StoredList(grant, u);
    var once := UserMeta.Written(meta, userId, grant, u);
    assert UserMeta.ReadIds(once, userId, grant) == stored;
    if grant == UserMeta.Pages || grant == UserMeta.Posts {
      DropZerosKeepsNoDup(u);
      UniqueAppendPresent(stored, ids);
      DropZerosIdentity(stored);
    } else {
      UniqueAppendPresent(u, ids);
    }
    assert Union(stored, ids) == stored;
    assert UserMeta.StoredList(grant, stored) == stored;
  }

  /** After a revoke by IDs the user holds the old IDs that were not given (pages and posts: the non-zero ones). */
  lemma RevokeRemoves(meta: UserMeta.Meta, userId: int, grant: UserMeta.GrantKey, arg: string, x: int)
    ensures x in UserMeta.ReadIds(UserMeta.Written(meta, userId, grant, Diff(UserMeta.ReadIds(meta, userId, grant), ParseIds(arg))),
                                  userId, grant) <==>
      x in UserMeta.ReadIds(meta, userId, grant) && x !in ParseIds(arg) &&
      (x != 0 || grant !in {UserMeta.Pages, UserMeta.Posts})
  {
  }

  /** Revoking what was just granted leaves none of those IDs, and keeps every other old one. */
  lemma GrantThenRevoke(meta: UserMeta.Meta, userId: int, grant: UserMeta.GrantKey, arg: string, x: int)
    ensures var granted := UserMeta.Written(meta, userId, grant, Union(UserMeta.ReadIds(meta, userId, grant), ParseIds(arg)));
      var revoked := UserMeta.Written(granted, userId, grant, Diff(UserMeta.ReadIds(granted, userId, grant), ParseIds(arg)));
      x in UserMeta.ReadIds(revoked, userId, grant) <==>
        x in UserMeta.ReadIds(meta, userId, grant) && x !in ParseIds(arg) &&
        (x != 0 || grant !in {UserMeta.Pages, UserMeta.Posts})
  {
    var granted := UserMeta.Written(meta, userId, grant, Union(UserMeta.ReadIds(meta, userId, grant), ParseIds(arg)));
    GrantAdds(meta, userId, grant, arg, x);
    RevokeRemoves(granted, userId, grant, arg, x);
  }

  // ---------------------------------------------------------------------
  // copy-access and list-users

  /** copy_access before it copies: both users resolved and distinct, else the error it stops with. */
  function CopyAccessUsers(source: Option<Wp.User>, target: Option<Wp.User>): (r: Result<(int, int), string>)
    ensures r.Ok? <==> source.Some? && target.Some? && source.value.id != target.value.id
    ensures r.Ok? ==> r.value == (source.value.id, target.value.id)
    ensures source.None? ==> r == Err("Source user not found.")
    ensures source.Some? && target.None? ==> r == Err("Target user not found.")
    ensures source.Some? && target.Some? && source.value.id == target.value.id ==>
      r == Err("Source and target users are the same.")
  {
    if source.None? then Err("Source user not found.")
    else if target.None? then Err("Target user not found.")
    else if source.value.id == target.value.id then Err("Source and target users are the same.")
    else Ok((source.value.id, target.value.id))
  }

  /** empty() of an optional schedule date. */
  predicate DateEmpty(d: Option<string>) {
    d.None? || d.value == "" || d.value == "0"
  }

  /** The Status column of list-users. */
  function AccessStatus(schedule: UserMeta.Schedule, active: bool): (r: string)
    ensures DateEmpty(schedule.start) && DateEmpty(schedule.end) ==> r == "Active"
    ensures !(DateEmpty(schedule.start) && DateEmpty(schedule.end)) ==>
      r == if active then "Scheduled" else "Expired/Inactive"
  {
    if !DateEmpty(schedule.start) || !DateEmpty(schedule.end) then
      if !active then "Expired/Inactive" else "Scheduled"
    else "Active"
  }
}
