/**
 * The PHP array and string primitives that the plugin's access rules are
 * built from, stated over Dafny sequences:
 *   array_filter on integer lists (drops 0), array_unique (keeps the first
 *   occurrence), array_merge + array_unique (duplicate-free union),
 *   array_diff, array_intersect, explode and intval.
 */
module PhpArrays {

  datatype Option<T> = None | Some(value: T)

  datatype Result<T, E> = Ok(value: T) | Err(error: E)

  /** A list in which no value occurs twice. */
  predicate NoDup<T(==)>(s: seq<T>) {
    forall i, j :: 0 <= i < j < |s| ==> s[i] != s[j]
  }

  /** The "no filter matches" sentinel the plugin puts into post__in/include. */
  const NoMatch: seq<int> := [0]

  /** An empty allowed list becomes the sentinel [0]; any other list is kept. */
  function Sentinel(ids: seq<int>): (r: seq<int>)
    ensures r != []
    ensures forall x :: x in r ==> x == 0 || x in ids
    ensures ids != [] ==> r == ids
  {
    if ids == [] then NoMatch else ids
  }

  /**
   * The constraint every listing filter of a restricted user sets: the
   * sentinel when the access schedule has expired, else the allowed list
   * (the sentinel when that is empty).
   */
  function ListingConstraint(active: bool, allowed: seq<int>): (r: seq<int>)
    ensures r != []
    ensures forall x :: x in r ==> x == 0 || (active && x in allowed)
    ensures !active ==> r == NoMatch
    ensures active && allowed != [] ==> r == allowed
  {
    if !active then NoMatch else Sentinel(allowed)
  }

  /** array_filter on an integer list: every 0 is removed, order is kept. */
  function DropZeros(s: seq<int>): (r: seq<int>)
    ensures forall x :: x in r <==> x in s && x != 0
    ensures |r| <= |s|
  {
    if s == [] then []
    else if s[0] == 0 then DropZeros(s[1..])
    else [s[0]] + DropZeros(s[1..])
  }

  /** array_filter works item by item, in order: filtering a concatenation concatenates the filtered parts. */
  lemma {:induction false} DropZerosAppend(a: seq<int>, b: seq<int>)
    ensures DropZeros(a + b) == DropZeros(a) + DropZeros(b)
    ensures DropZeros([0]) == [] && forall x :: x != 0 ==> DropZeros([x]) == [x]
  {
    if a != [] {
      assert (a + b)[1..] == a[1..] + b;
      DropZerosAppend(a[1..], b);
    } else {
      assert a + b == b;
    }
  }

  lemma {:induction false} DropZerosIdentity(s: seq<int>)
    requires 0 !in s
    ensures DropZeros(s) == s
  {
    if s != [] {
      assert s[0] != 0;
      DropZerosIdentity(s[1..]);
      assert [s[0]] + s[1..] == s;
    }
  }

  /** Removing zeros keeps a list duplicate-free. */
  lemma {:induction false} DropZerosKeepsNoDup(s: seq<int>)
    requires NoDup(s)
    ensures NoDup(DropZeros(s))
  {
    if s != [] {
      DropZerosKeepsNoDup(s[1..]);
      assert s[0] !in s[1..] by {
        forall k | 0 <= k < |s[1..]| ensures s[1..][k] != s[0] {
          assert s[k + 1] != s[0];
        }
      }
    }
  }

  /** array_unique: the first occurrence of every value, in order. */
  function Unique<T(==,!new)>(s: seq<T>): (r: seq<T>)
    ensures NoDup(r)
    ensures forall x :: x in r <==> x in s
    ensures |r| <= |s|
  {
    if s == [] then []
    else
      var u := Unique(s[..|s| - 1]);
      if s[|s| - 1] in u then u else u + [s[|s| - 1]]
  }

  /** array_unique leaves a duplicate-free list as it is. */
  lemma {:induction false} UniqueOfNoDup<T(!new)>(s: seq<T>)
    requires NoDup(s)
    ensures Unique(s) == s
  {
    if s != [] {
      var init := s[..|s| - 1];
      assert NoDup(init);
      UniqueOfNoDup(init);
      assert s[|s| - 1] !in init by {
        forall i | 0 <= i < |init| ensures init[i] != s[|s| - 1] {
          assert s[i] != s[|s| - 1];
        }
      }
      assert init + [s[|s| - 1]] == s;
    }
  }

  /** Appending values that are already present changes nothing. */
  lemma {:induction false} UniqueAppendPresent<T(!new)>(u: seq<T>, t: seq<T>)
    requires NoDup(u)
    requires forall x :: x in t ==> x in u
    ensures Unique(u + t) == u
  {
    if t == [] {
      assert u + t == u;
      UniqueOfNoDup(u);
    } else {
      var t' := t[..|t| - 1];
      assert (u + t)[..|u + t| - 1] == u + t';
      assert (u + t)[|u + t| - 1] == t[|t| - 1];
      UniqueAppendPresent(u, t');
    }
  }

  /** array_unique(array_merge(a, b)): the duplicate-free union of two lists. */
  function Union(a: seq<int>, b: seq<int>): (r: seq<int>)
    ensures NoDup(r)
    ensures forall x :: x in r <==> x in a || x in b
  {
    Unique(a + b)
  }

  /** Adding the same list twice is adding it once. */
  lemma UnionIdempotent(a: seq<int>, b: seq<int>)
    ensures Union(Union(a, b), b) == Union(a, b)
  {
    UniqueAppendPresent(Union(a, b), b);
  }

  /** Concatenation is associative; stated once so that loops appending to a list need not re-derive it. */
  lemma AppendAssoc<T>(a: seq<T>, b: seq<T>, c: seq<T>)
    ensures (a + b) + c == a + (b + c)
  {
  }

  /** The lists f gives for the first n elements of xs, concatenated in order. */
  function FlatMap<T, U>(xs: seq<T>, f: T -> seq<U>, n: nat): seq<U>
    requires n <= |xs|
  {
    if n == 0 then [] else FlatMap(xs, f, n - 1) + f(xs[n - 1])
  }

  /** One more item appends its list. */
  lemma FlatMapStep<T, U>(xs: seq<T>, f: T -> seq<U>, n: nat)
    requires n < |xs|
    ensures FlatMap(xs, f, n + 1) == FlatMap(xs, f, n) + f(xs[n])
  {
  }

  /** A value is in the concatenation iff one of the lists holds it. */
  lemma {:induction false} FlatMapMembers<T, U>(xs: seq<T>, f: T -> seq<U>, n: nat, y: U)
    requires n <= |xs|
    ensures y in FlatMap(xs, f, n) <==> exists i :: 0 <= i < n && y in f(xs[i])
  {
    if n > 0 {
      FlatMapMembers(xs, f, n - 1, y);
    }
  }

  /** array_diff: the values of a that do not occur in b, in a's order. */
  function Diff(a: seq<int>, b: seq<int>): (r: seq<int>)
    ensures forall x :: x in r <==> x in a && x !in b
    ensures |r| <= |a|
  {
    if a == [] then []
    else if a[0] in b then Diff(a[1..], b)
    else [a[0]] + Diff(a[1..], b)
  }

  /** array_intersect: the values of a that also occur in b, in a's order. */
  function Intersect(a: seq<int>, b: seq<int>): (r: seq<int>)
    ensures forall x :: x in r <==> x in a && x in b
    ensures |r| <= |a|
  {
    if a == [] then []
    else if a[0] in b then [a[0]] + Intersect(a[1..], b)
    else Intersect(a[1..], b)
  }

  /** Removing values and adding them back gives the old values plus those. */
  lemma DiffThenUnion(a: seq<int>, b: seq<int>)
    ensures forall x :: x in Union(Diff(a, b), b) <==> x in a || x in b
  {
  }

  // ---------------------------------------------------------------------
  // Strings: explode(',', s) and intval(s)

  predicate IsDigit(c: char) { '0' <= c <= '9' }

  predicate AllDigits(s: string) { forall i :: 0 <= i < |s| ==> IsDigit(s[i]) }

  /** The decimal value of a run of digits. */
  function DigitsValue(s: string): (n: nat)
    requires AllDigits(s)
  {
    if s == [] then 0
    else DigitsValue(s[..|s| - 1]) * 10 + (s[|s| - 1] as int - '0' as int)
  }

  /** The longest prefix of s made of digits. */
  function LeadingDigits(s: string): (r: string)
    ensures r <= s && AllDigits(r)
    ensures |r| < |s| ==> !IsDigit(s[|r|])
  {
    if s == [] || !IsDigit(s[0]) then [] else [s[0]] + LeadingDigits(s[1..])
  }

  /** The whitespace PHP skips in front of a number. */
  predicate IsSpace(c: char) {
    c == ' ' || c == '\t' || c == '\n' || c == '\r' || c == '\U{0B}' || c == '\U{0C}'
  }

  function SkipSpaces(s: string): (r: string)
    ensures |r| <= |s| && r == s[|s| - |r|..]
    ensures r == [] || !IsSpace(r[0])
  {
    if s != [] && IsSpace(s[0]) then SkipSpaces(s[1..]) else s
  }

  /**
   * intval of a string in base 10: leading whitespace, an optional sign,
   * then the longest run of digits; 0 when there is none.
   */
  function Intval(s: string): int {
    var t := SkipSpaces(s);
    if t != [] && (t[0] == '-' || t[0] == '+') then
      var v: int := DigitsValue(LeadingDigits(t[1..]));
      if t[0] == '-' then -v else v
    else
      DigitsValue(LeadingDigits(t))
  }

  /** On a plain run of digits intval is the decimal value. */
  lemma IntvalOfDigits(s: string)
    requires AllDigits(s)
    ensures Intval(s) == DigitsValue(s)
  {
    if s != [] {
      assert !IsSpace(s[0]) && IsDigit(s[0]);
    }
    LeadingDigitsOfDigits(s);
  }

  lemma {:induction false} LeadingDigitsOfDigits(s: string)
    requires AllDigits(s)
    ensures LeadingDigits(s) == s
  {
    if s != [] {
      LeadingDigitsOfDigits(s[1..]);
      assert [s[0]] + s[1..] == s;
    }
  }

  /** strpos(s, prefix) === 0: s starts with prefix. */
  predicate StartsWith(s: string, prefix: string) {
    |prefix| <= |s| && s[..|prefix|] == prefix
  }

  /** sub occurs in s at index i. */
  predicate OccursAt(s: string, sub: string, i: int) {
    0 <= i && i + |sub| <= |s| && s[i..i + |sub|] == sub
  }

  /** strpos(s, sub) !== false: sub occurs somewhere in s. */
  predicate Contains(s: string, sub: string) {
    exists i :: 0 <= i <= |s| - |sub| && OccursAt(s, sub, i)
  }

  /** explode(sep, s): the pieces of s between the separators. */
  function Split(s: string, sep: char): (r: seq<string>)
    ensures |r| >= 1
    ensures forall i :: 0 <= i < |r| ==> sep !in r[i]
  {
    if s == [] then [[]]
    else
      var rest := Split(s[1..], sep);
      if s[0] == sep then [[]] + rest
      else [[s[0]] + rest[0]] + rest[1..]
  }

  /** implode(sep, parts): the inverse of Split. */
  function Join(parts: seq<string>, sep: char): string
    requires |parts| >= 1
  {
    if |parts| == 1 then parts[0] else parts[0] + [sep] + Join(parts[1..], sep)
  }

  lemma {:induction false} JoinSplit(s: string, sep: char)
    ensures Join(Split(s, sep), sep) == s
  {
    if s != [] {
      var rest := Split(s[1..], sep);
      JoinSplit(s[1..], sep);
      if s[0] == sep {
        assert Split(s, sep)[1..] == rest;
      } else {
        var r := Split(s, sep);
        if |rest| == 1 {
          assert r == [[s[0]] + rest[0]];
        } else {
          assert r[1..] == rest[1..];
          assert Join(r, sep) == [s[0]] + (rest[0] + [sep] + Join(rest[1..], sep));
        }
      }
    }
  }

  /** A PHP scalar as it arrives from a request or a decoded array. */
  datatype Scalar = SInt(i: int) | SStr(s: string)

  /** intval of a scalar: integers pass through, strings are parsed. */
  function IntvalOf(v: Scalar): int {
    match v
    case SInt(i) => i
    case SStr(s) => Intval(s)
  }

  /** explode(',') then intval: the IDs of a comma-separated list. */
  function ListIds(s: string): (r: seq<int>)
    ensures |r| == |Split(s, ',')|
  {
    MapIntval(Split(s, ','))
  }

  /** ASCII case folding, as strtolower and the /i regex flag apply it. */
  function Lower(c: char): (r: char)
    ensures 'A' <= c <= 'Z' ==> r as int == c as int + 32
    ensures !('A' <= c <= 'Z') ==> r == c
  {
    if 'A' <= c <= 'Z' then (c as int + 32) as char else c
  }

  /** strtolower */
  function ToLower(s: string): (r: string)
    ensures |r| == |s| && forall i :: 0 <= i < |s| ==> r[i] == Lower(s[i])
  {
    seq(|s|, i requires 0 <= i < |s| => Lower(s[i]))
  }

  /** array_map('intval', $list) over scalars. */
  function IntvalAll(items: seq<Scalar>): (r: seq<int>)
    ensures |r| == |items|
    ensures forall i :: 0 <= i < |items| ==> r[i] == IntvalOf(items[i])
  {
    if items == [] then [] else [IntvalOf(items[0])] + IntvalAll(items[1..])
  }

  /** Integer IDs as submitted array items. */
  function AsScalars(ids: seq<int>): (r: seq<Scalar>)
    ensures |r| == |ids| && forall i :: 0 <= i < |ids| ==> r[i] == SInt(ids[i])
  {
    seq(|ids|, i requires 0 <= i < |ids| => SInt(ids[i]))
  }

  /** intval gives integer items back unchanged. */
  lemma IntvalAllOfInts(ids: seq<int>)
    ensures IntvalAll(AsScalars(ids)) == ids
  {
  }

  /** An integer is in array_map('intval', $items) exactly when some item's intval is that integer. */
  lemma IntvalAllMembers(items: seq<Scalar>)
    ensures forall x :: x in IntvalAll(items) <==> exists i :: 0 <= i < |items| && IntvalOf(items[i]) == x
  {
    var r := IntvalAll(items);
    forall x | x in r
      ensures exists i :: 0 <= i < |items| && IntvalOf(items[i]) == x
    {
      var i :| 0 <= i < |r| && r[i] == x;
      assert IntvalOf(items[i]) == x;
    }
  }

  /** array_map('intval', $list). */
  function MapIntval(parts: seq<string>): (r: seq<int>)
    ensures |r| == |parts|
    ensures forall i :: 0 <= i < |parts| ==> r[i] == Intval(parts[i])
  {
    if parts == [] then [] else [Intval(parts[0])] + MapIntval(parts[1..])
  }

  // ---------------------------------------------------------------------
  // PHP arrays with string keys

  /** A PHP array with string keys: (key, value) pairs in insertion order. */
  type Assoc<V> = seq<(string, V)>

  /** $a[k] when isset: the value under the first occurrence of k. */
  function Lookup<V>(a: Assoc<V>, k: string): Option<V>
  {
    if a == [] then None
    else if a[0].0 == k then Some(a[0].1)
    else Lookup(a[1..], k)
  }

  /** isset($a[k]) holds exactly when some pair has the key. */
  lemma {:induction false} LookupIndex<V>(a: Assoc<V>, k: string)
    ensures Lookup(a, k).Some? <==> exists i :: 0 <= i < |a| && a[i].0 == k
  {
    if a != [] && a[0].0 != k {
      LookupIndex(a[1..], k);
      if exists i :: 0 <= i < |a| && a[i].0 == k {
        var i :| 0 <= i < |a| && a[i].0 == k;
        assert a[1..][i - 1].0 == k;
      }
      if exists i :: 0 <= i < |a[1..]| && a[1..][i].0 == k {
        var i :| 0 <= i < |a[1..]| && a[1..][i].0 == k;
        assert a[i + 1].0 == k;
      }
    }
  }

  /** Lookup finds the first pair with the key. */
  lemma {:induction false} LookupFirst<V>(a: Assoc<V>, k: string, i: nat)
    requires i < |a| && a[i].0 == k
    requires forall j :: 0 <= j < i ==> a[j].0 != k
    ensures Lookup(a, k) == Some(a[i].1)
  {
    if i > 0 {
      LookupFirst(a[1..], k, i - 1);
    }
  }

  /** $a[k] = v: overwrites the value in place when k is present, else appends. */
  function Put<V>(a: Assoc<V>, k: string, v: V): (r: Assoc<V>)
    ensures Lookup(r, k) == Some(v)
    ensures forall k' :: k' != k ==> Lookup(r, k') == Lookup(a, k')
    ensures Lookup(a, k).Some? ==> |r| == |a| && forall i :: 0 <= i < |a| ==> r[i].0 == a[i].0
    ensures Lookup(a, k).None? ==> r == a + [(k, v)]
  {
    if a == [] then [(k, v)]
    else if a[0].0 == k then [(k, v)] + a[1..]
    else [a[0]] + Put(a[1..], k, v)
  }

  /** No key occurs twice: what every array built with $a[k] = v satisfies. */
  predicate DistinctKeys<V>(a: Assoc<V>) {
    forall i, j :: 0 <= i < j < |a| ==> a[i].0 != a[j].0
  }

  /** Put keeps the keys distinct. */
  lemma PutDistinct<V>(a: Assoc<V>, k: string, v: V)
    requires DistinctKeys(a)
    ensures DistinctKeys(Put(a, k, v))
  {
    var r := Put(a, k, v);
    if Lookup(a, k).Some? {
      forall i, j | 0 <= i < j < |r|
        ensures r[i].0 != r[j].0
      {
        assert r[i].0 == a[i].0 && r[j].0 == a[j].0;
      }
    } else {
      LookupIndex(a, k);
      forall i, j | 0 <= i < j < |r|
        ensures r[i].0 != r[j].0
      {
        if j == |a| {
          assert r[i] == a[i] && r[j].0 == k;
        } else {
          assert r[i] == a[i] && r[j] == a[j];
        }
      }
    }
  }

  /** Put leaves the lookup of every other key as it was. */
  lemma PutOther<V>(a: Assoc<V>, k: string, v: V, k': string)
    requires k != k'
    ensures Lookup(Put(a, k, v), k') == Lookup(a, k')
  {
  }

  /** Looking up in an array with one more pair at the end. */
  lemma {:induction false} LookupAppend<V>(a: Assoc<V>, k: string, v: V, k': string)
    ensures Lookup(a + [(k, v)], k') == if Lookup(a, k').Some? then Lookup(a, k') else if k == k' then Some(v) else None
  {
    if a != [] {
      assert (a + [(k, v)])[1..] == a[1..] + [(k, v)];
      LookupAppend(a[1..], k, v, k');
    }
  }
}
