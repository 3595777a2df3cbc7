/**
 * The edit-screen guard (load-post.php) and the access log it writes.
 *
 * A non-administrator opening a page or post that is not granted is
 * logged and stopped with 403. The log is most recent first and keeps
 * at most 50 entries.
 */
module PostAccess {
  import opened PhpArrays
  import opened Wp
  import UserMeta

  /** One log entry; the time and the client IP are not modelled. */
  datatype LogEntry = LogEntry(userLogin: string, postId: int, postTitle: string)

  const MaxLogEntries: nat := 50

  /** The first n elements of s, or all of s when it is shorter. */
  function Take<T>(s: seq<T>, n: nat): (r: seq<T>)
    ensures |r| == if |s| < n then |s| else n
    ensures r <= s
  {
    if |s| <= n then s else s[..n]
  }

  /** array_unshift of the new entry, then array_slice(0, 50) when over 50. */
  function PushCapped(logs: seq<LogEntry>, e: LogEntry): (r: seq<LogEntry>)
    ensures 1 <= |r| <= MaxLogEntries && r[0] == e
    ensures r[1..] == Take(logs, MaxLogEntries - 1)
  {
    Take([e] + logs, MaxLogEntries)
  }

  /** The log value as log_access_attempt reads it: anything but an array is empty. */
  function CurrentLog(raw: Option<seq<LogEntry>>): seq<LogEntry> {
    if raw.Some? then raw.value else []
  }

  /** The stored log option. None stands for a value that is not an array. */
  class AccessLog {
    var raw: Option<seq<LogEntry>>

    constructor ()
      ensures raw == Some([])
    {
      raw := Some([]);
    }

    function Entries(): seq<LogEntry>
      reads this
    {
      CurrentLog(raw)
    }

    /** Prepends an entry and keeps the 50 most recent. */
    method Record(e: LogEntry)
      modifies this
      ensures raw == Some(PushCapped(CurrentLog(old(raw)), e))
      ensures Entries()[0] == e && |Entries()| <= MaxLogEntries
    {
      var logs := raw;
      var list: seq<LogEntry>;
      if logs.Some? {
        list := logs.value;
      } else {
        list := [];
      }
      list := [e] + list;
      if |list| > MaxLogEntries {
        list := list[..MaxLogEntries];
      }
      raw := Some(list);
    }
  }

  function Reverse<T>(s: seq<T>): (r: seq<T>)
    ensures |r| == |s|
  {
    if s == [] then [] else Reverse(s[1..]) + [s[0]]
  }

  /** Recording each entry of es in turn. */
  function RecordAll(logs: seq<LogEntry>, es: seq<LogEntry>): seq<LogEntry>
    decreases es
  {
    if es == [] then logs else RecordAll(PushCapped(logs, es[0]), es[1..])
  }

  lemma {:induction false} TakeAppendTake<T>(a: seq<T>, b: seq<T>, n: nat)
    ensures Take(a + Take(b, n), n) == Take(a + b, n)
  {
    if |b| > n {
      var x := a + b[..n];
      assert Take(x, n) == x[..n];
      assert x[..n] == (a + b)[..n];
    }
  }

  /**
   * After any run of denials the log is the 50 most recent entries, newest
   * first; a stored log that is already too long is trimmed by the first
   * denial, and is left as it is only when there is none.
   */
  lemma {:induction false} RecordAllKeepsNewest(logs: seq<LogEntry>, es: seq<LogEntry>)
    requires |logs| <= MaxLogEntries || es != []
    ensures RecordAll(logs, es) == Take(Reverse(es) + logs, MaxLogEntries)
    decreases es
  {
    if es == [] {
      assert Reverse(es) + logs == logs;
    } else {
      var e := es[0];
      var pushed := PushCapped(logs, e);
      RecordAllKeepsNewest(pushed, es[1..]);
      TakeAppendTake(Reverse(es[1..]), [e] + logs, MaxLogEntries);
      ReverseCons(es, logs);
    }
  }

  lemma ReverseCons<T>(es: seq<T>, logs: seq<T>)
    requires es != []
    ensures Reverse(es) + logs == Reverse(es[1..]) + ([es[0]] + logs)
  {
    var r := Reverse(es[1..]);
    assert Reverse(es) == r + [es[0]];
    AppendAssoc(r, [es[0]], logs);
  }

  /** The post ID of the request: intval($_GET['post']), or 0 when absent. */
  function RequestPostId(param: Option<string>): int {
    if param.Some? then Intval(param.value) else 0
  }

  /** check_post_access: whether the request is stopped (and logged). */
  predicate Denied(me: User, postId: int, posts: Posts, pages: seq<int>, postList: seq<int>) {
    && !me.canManageOptions
    && postId != 0
    && postId in posts
    && ((posts[postId].postType == "page" && postId !in pages) ||
        (posts[postId].postType == "post" && postId !in postList))
  }

  /** Pages need a page grant, posts a post grant; every other type is let through. */
  lemma DeniedOnlyUngrantedPagesAndPosts(me: User, postId: int, posts: Posts, pages: seq<int>, postList: seq<int>)
    requires !me.canManageOptions && postId != 0 && postId in posts
    ensures posts[postId].postType == "page" ==> (Denied(me, postId, posts, pages, postList) <==> postId !in pages)
    ensures posts[postId].postType == "post" ==> (Denied(me, postId, posts, pages, postList) <==> postId !in postList)
    ensures posts[postId].postType !in ["page", "post"] ==> !Denied(me, postId, posts, pages, postList)
  {
  }

  /** check_post_access: a denial is logged and answered with 403; any other request goes on unlogged. */
  method CheckPostAccess(me: User, param: Option<string>, posts: Posts, users: Users,
                         store: UserMeta.GrantStore, log: AccessLog) returns (v: Verdict)
    modifies log
    ensures var postId := RequestPostId(param);
      var denied := Denied(me, postId, posts, store.AllowedPages(me.id), store.AllowedPosts(me.id));
      && v == (if denied then Forbidden else Proceed)
      && log.raw == if denied then Some(PushCapped(CurrentLog(old(log.raw)),
                                                  LogEntry(LoginOf(users, me.id), postId, TitleOf(posts, postId))))
                     else old(log.raw)
  {
    if me.canManageOptions {
      return Proceed;
    }
    var postId := RequestPostId(param);
    if postId == 0 {
      return Proceed;
    }
    if postId !in posts {
      return Proceed;
    }
    var post := posts[postId];
    var userId := me.id;
    var isAllowed := false;
    if post.postType == "page" {
      var allowed := store.AllowedPages(userId);
      if postId in allowed {
        isAllowed := true;
      }
    } else if post.postType == "post" {
      var allowed := store.AllowedPosts(userId);
      if postId in allowed {
        isAllowed := true;
      }
    } else {
      isAllowed := true;
    }
    if !isAllowed {
      log.Record(LogEntry(LoginOf(users, userId), postId, TitleOf(posts, postId)));
      return Forbidden;
    }
    return Proceed;
  }
}
