/**
 * The four case-insensitive patterns get_images_from_content runs over a
 * post body, and preg_match_all's left-to-right scan with them.
 *
 *   ImageBlock        wp:image\s+\{"id":(\d+)
 *   GalleryBlock      wp:gallery.*?"ids":\[([\d,]+)\]
 *   GalleryShortcode  \[gallery[^\]]*ids=["']?([\d,]+)["']?
 *   ImageClass        class="[^"]*wp-image-(\d+)[^"]*"
 *
 * Each pattern is stated as the match PCRE finds when it starts at a given
 * position: the greedy and lazy quantifiers are resolved into "the last" or
 * "the first" place where the rest of the pattern fits.
 */
module ContentScanner {
  import opened PhpArrays

  datatype Pattern = ImageBlock | GalleryBlock | GalleryShortcode | ImageClass

  /** A match: where it ends (exclusive), where its capture group starts, and the captured text. */
  datatype Match = Match(end: nat, from: nat, capture: string)

  /** The lower-case literal lit occurs at p, ignoring case. */
  predicate LitAt(s: string, p: nat, lit: string) {
    p + |lit| <= |s| && forall k :: 0 <= k < |lit| ==> Lower(s[p + k]) == lit[k]
  }

  predicate IsListChar(c: char) { IsDigit(c) || c == ',' }

  predicate IsQuote(c: char) { c == '"' || c == '\'' }

  /** The length of the longest run of characters satisfying ok from p. */
  function Run(s: string, p: nat, ok: char -> bool): (n: nat)
    requires p <= |s|
    ensures p + n <= |s|
    ensures forall k :: p <= k < p + n ==> ok(s[k])
    ensures p + n < |s| ==> !ok(s[p + n])
    decreases |s| - p
  {
    if p < |s| && ok(s[p]) then 1 + Run(s, p + 1, ok) else 0
  }

  /** The first index at or after p holding c, or |s| when there is none. */
  function IndexFrom(s: string, p: nat, c: char): (i: nat)
    requires p <= |s|
    ensures p <= i <= |s|
    ensures forall k :: p <= k < i ==> s[k] != c
    ensures i < |s| ==> s[i] == c
    decreases |s| - p
  {
    if p == |s| || s[p] == c then p else IndexFrom(s, p + 1, c)
  }

  /**
   * A well-formed match from p: it consumes input, and its capture is a
   * non-empty run of digits and commas cut from s inside the match.
   */
  predicate GoodMatch(s: string, p: nat, r: Option<Match>) {
    r.Some? ==> p < r.value.end <= |s| && r.value.capture != [] &&
                p <= r.value.from && r.value.from + |r.value.capture| <= r.value.end &&
                r.value.capture == s[r.value.from .. r.value.from + |r.value.capture|] &&
                forall k :: 0 <= k < |r.value.capture| ==> IsListChar(r.value.capture[k])
  }

  // --- wp:image\s+\{"id":(\d+)

  function ImageBlockAt(s: string, p: nat): (r: Option<Match>)
    requires p <= |s|
    ensures GoodMatch(s, p, r)
    ensures r.Some? ==> LitAt(s, p, "wp:image") && AllDigits(r.value.capture)
  {
    if !LitAt(s, p, "wp:image") then None
    else
      var q := p + 8;
      var w := Run(s, q, IsSpace);
      if w == 0 || !LitAt(s, q + w, "{\"id\":") then None
      else
        var d := Run(s, q + w + 6, IsDigit);
        if d == 0 then None
        else Some(Match(q + w + 6 + d, q + w + 6, s[q + w + 6 .. q + w + 6 + d]))
  }

  // --- wp:gallery.*?"ids":\[([\d,]+)\]

  /** The part after the lazy .*? : "ids":[ list ] at k. */
  function IdsArrayAt(s: string, k: nat): (r: Option<Match>)
    requires k <= |s|
    ensures GoodMatch(s, k, r)
    ensures r.Some? ==> LitAt(s, k, "\"ids\":[") && r.value.from == k + 7
    ensures r.Some? ==> r.value.end == r.value.from + |r.value.capture| + 1 && s[r.value.end - 1] == ']'
  {
    if !LitAt(s, k, "\"ids\":[") then None
    else
      var r := Run(s, k + 7, IsListChar);
      if r == 0 || k + 7 + r >= |s| || s[k + 7 + r] != ']' then None
      else Some(Match(k + 7 + r + 1, k + 7, s[k + 7 .. k + 7 + r]))
  }

  /** The lazy .*? : the first k up to limit (the next line break) where the rest fits. */
  function FirstIdsArray(s: string, k: nat, limit: nat): (r: Option<nat>)
    requires k <= limit <= |s|
    ensures r.Some? ==> k <= r.value <= limit && IdsArrayAt(s, r.value).Some?
    decreases limit - k
  {
    if IdsArrayAt(s, k).Some? then Some(k)
    else if k == limit then None
    else FirstIdsArray(s, k + 1, limit)
  }

  function GalleryBlockAt(s: string, p: nat): (r: Option<Match>)
    requires p <= |s|
    ensures GoodMatch(s, p, r)
    ensures r.Some? ==> LitAt(s, p, "wp:gallery")
  {
    if !LitAt(s, p, "wp:gallery") then None
    else
      var i := FirstIdsArray(s, p + 10, IndexFrom(s, p + 10, '\n'));
      if i.None? then None else IdsArrayAt(s, i.value)
  }

  // --- \[gallery[^\]]*ids=["']?([\d,]+)["']?

  /** The part after [^\]]* : ids= , an optional quote, the list, an optional quote. */
  function IdsAttrAt(s: string, j: nat): (r: Option<Match>)
    requires j <= |s|
    ensures GoodMatch(s, j, r)
    ensures r.Some? ==> LitAt(s, j, "ids=")
  {
    if !LitAt(s, j, "ids=") then None
    else
      var v := if j + 4 < |s| && IsQuote(s[j + 4]) then j + 5 else j + 4;
      var n := Run(s, v, IsListChar);
      if n == 0 then None
      else Some(Match(if v + n < |s| && IsQuote(s[v + n]) then v + n + 1 else v + n, v, s[v .. v + n]))
  }


  /** The greedy [^\]]* backs off from its longest reach: the last j in [lo, j] where the rest fits. */
  function LastIdsAttr(s: string, lo: nat, j: nat): (r: Option<Match>)
    requires lo <= j <= |s|
    ensures GoodMatch(s, lo, r)
    decreases j - lo
  {
    var here := IdsAttrAt(s, j);
    if here.Some? then here
    else if j == lo then None
    else LastIdsAttr(s, lo, j - 1)
  }

  function GalleryShortcodeAt(s: string, p: nat): (r: Option<Match>)
    requires p <= |s|
    ensures GoodMatch(s, p, r)
    ensures r.Some? ==> LitAt(s, p, "[gallery")
  {
    if !LitAt(s, p, "[gallery") then None
    else LastIdsAttr(s, p + 8, IndexFrom(s, p + 8, ']'))
  }

  // --- class="[^"]*wp-image-(\d+)[^"]*"

  /** wp-image- followed by at least one digit at j. */
  predicate WpImageAt(s: string, j: nat)
    requires j <= |s|
  {
    LitAt(s, j, "wp-image-") && Run(s, j + 9, IsDigit) > 0
  }

  /** The greedy [^"]* backs off from the closing quote: the last j in [lo, j] holding wp-image-N. */
  function LastWpImage(s: string, lo: nat, j: nat): (r: Option<nat>)
    requires lo <= j <= |s|
    ensures r.Some? ==> lo <= r.value <= j && WpImageAt(s, r.value)
    decreases j - lo
  {
    if WpImageAt(s, j) then Some(j)
    else if j == lo then None
    else LastWpImage(s, lo, j - 1)
  }

  function ImageClassAt(s: string, p: nat): (r: Option<Match>)
    requires p <= |s|
    ensures GoodMatch(s, p, r)
    ensures r.Some? ==> LitAt(s, p, "class=\"") && AllDigits(r.value.capture)
  {
    if !LitAt(s, p, "class=\"") then None
    else
      var e := IndexFrom(s, p + 7, '"');
      if e == |s| then None
      else
        var j := LastWpImage(s, p + 7, e);
        if j.None? then None
        else
          var d := Run(s, j.value + 9, IsDigit);
          WpImageBeforeQuote(s, j.value, e);
          Some(Match(e + 1, j.value + 9, s[j.value + 9 .. j.value + 9 + d]))
  }

  /** wp-image-N ends before the closing quote of the class attribute. */
  lemma WpImageBeforeQuote(s: string, j: nat, e: nat)
    requires j <= e < |s| && s[e] == '"' && WpImageAt(s, j)
    ensures j + 9 + Run(s, j + 9, IsDigit) <= e
  {
    forall k | j <= k < j + 9 + Run(s, j + 9, IsDigit)
      ensures s[k] != '"'
    {
      if k < j + 9 {
        assert Lower(s[j + (k - j)]) == "wp-image-"[k - j];
      } else {
        assert IsDigit(s[k]);
      }
    }
  }

  /** The match PCRE finds for a pattern starting exactly at p, if any. */
  /** The literal each pattern begins with, in lower case. */
  function Prefix(pat: Pattern): string {
    match pat
    case ImageBlock => "wp:image"
    case GalleryBlock => "wp:gallery"
    case GalleryShortcode => "[gallery"
    case ImageClass => "class=\""
  }

  function MatchAt(pat: Pattern, s: string, p: nat): (r: Option<Match>)
    requires p <= |s|
    ensures GoodMatch(s, p, r)
    ensures r.Some? ==> LitAt(s, p, Prefix(pat))
    ensures r.Some? && (pat == ImageBlock || pat == ImageClass) ==> AllDigits(r.value.capture)
  {
    match pat
    case ImageBlock => ImageBlockAt(s, p)
    case GalleryBlock => GalleryBlockAt(s, p)
    case GalleryShortcode => GalleryShortcodeAt(s, p)
    case ImageClass => ImageClassAt(s, p)
  }

  /** A wp:image match is the literal, a run of whitespace, {"id": and the longest run of digits, which it captures. */
  lemma ImageBlockShape(s: string, p: nat)
    requires p <= |s| && ImageBlockAt(s, p).Some?
    ensures var m := ImageBlockAt(s, p).value;
      && p + 8 < m.from - 6
      && (forall k :: p + 8 <= k < m.from - 6 ==> IsSpace(s[k]))
      && LitAt(s, m.from - 6, "{\"id\":")
      && m.end == m.from + |m.capture|
      && (m.end < |s| ==> !IsDigit(s[m.end]))
  {
  }

  /**
   * A wp:gallery match is the literal, then characters on the same line
   * before "ids":[, then the list it captures and a closing ].
   */
  lemma GalleryBlockShape(s: string, p: nat)
    requires p <= |s| && GalleryBlockAt(s, p).Some?
    ensures var m := GalleryBlockAt(s, p).value;
      && p + 10 <= m.from - 7
      && (forall k :: p + 10 <= k < m.from - 7 ==> s[k] != '\n')
      && LitAt(s, m.from - 7, "\"ids\":[")
      && m.end == m.from + |m.capture| + 1 && s[m.end - 1] == ']'
  {
    var limit := IndexFrom(s, p + 10, '\n');
    var i := FirstIdsArray(s, p + 10, limit);
    assert GalleryBlockAt(s, p) == IdsArrayAt(s, i.value);
  }

  /** The greedy [^\]]* settles on some place in the window where ids= and a list fit. */
  lemma {:induction false} LastIdsAttrShape(s: string, lo: nat, j: nat)
    requires lo <= j <= |s| && LastIdsAttr(s, lo, j).Some?
    ensures exists i :: lo <= i <= j && IdsAttrAt(s, i) == LastIdsAttr(s, lo, j)
    decreases j - lo
  {
    if IdsAttrAt(s, j).None? {
      LastIdsAttrShape(s, lo, j - 1);
    }
  }

  /**
   * A [gallery match is the literal, characters other than ], then ids=,
   * an optional quote and the list it captures.
   */
  lemma GalleryShortcodeShape(s: string, p: nat)
    requires p <= |s| && GalleryShortcodeAt(s, p).Some?
    ensures var m := GalleryShortcodeAt(s, p).value;
      exists i :: p + 8 <= i && LitAt(s, i, "ids=") && (forall k :: p + 8 <= k < i ==> s[k] != ']') &&
                  (m.from == i + 4 || (m.from == i + 5 && IsQuote(s[i + 4])))
  {
    var e := IndexFrom(s, p + 8, ']');
    LastIdsAttrShape(s, p + 8, e);
    var i :| p + 8 <= i <= e && IdsAttrAt(s, i) == GalleryShortcodeAt(s, p);
    assert LitAt(s, i, "ids=");
  }

  /**
   * A class match is class=", characters other than ", wp-image- and the
   * longest run of digits, which it captures, then up to the closing ".
   */
  lemma ImageClassShape(s: string, p: nat)
    requires p <= |s| && ImageClassAt(s, p).Some?
    ensures var m := ImageClassAt(s, p).value;
      && p + 7 <= m.from - 9
      && LitAt(s, m.from - 9, "wp-image-")
      && (m.from + |m.capture| < |s| ==> !IsDigit(s[m.from + |m.capture|]))
      && s[m.end - 1] == '"'
      && forall k :: p + 7 <= k < m.end - 1 ==> s[k] != '"'
  {
  }

  /** preg_match_all from pos: the captures of the successive non-overlapping matches. */
  function Scan(pat: Pattern, s: string, pos: nat): seq<string>
    requires pos <= |s|
    decreases |s| - pos
  {
    if pos == |s| then []
    else
      var m := MatchAt(pat, s, pos);
      if m.Some? then [m.value.capture] + Scan(pat, s, m.value.end)
      else Scan(pat, s, pos + 1)
  }

  /** Every capture preg_match_all reports is the capture of a match at some position. */
  lemma {:induction false} ScanSound(pat: Pattern, s: string, pos: nat, c: string)
    requires pos <= |s|
    requires c in Scan(pat, s, pos)
    ensures exists p :: pos <= p < |s| && MatchAt(pat, s, p).Some? && MatchAt(pat, s, p).value.capture == c
    decreases |s| - pos
  {
    var m := MatchAt(pat, s, pos);
    if m.Some? {
      if c != m.value.capture {
        ScanSound(pat, s, m.value.end, c);
      }
    } else {
      ScanSound(pat, s, pos + 1, c);
    }
  }

  /** Inside a wp:image match no character after the first folds to 'w'. */
  lemma ImageBlockInterior(s: string, q: nat, p: nat)
    requires q <= |s| && ImageBlockAt(s, q).Some?
    requires q < p < ImageBlockAt(s, q).value.end
    ensures Lower(s[p]) != 'w'
  {
    var w := Run(s, q + 8, IsSpace);
    if p < q + 8 {
      assert Lower(s[q + (p - q)]) == "wp:image"[p - q];
    } else if p < q + 8 + w {
      assert IsSpace(s[p]);
    } else if p < q + 8 + w + 6 {
      assert Lower(s[q + 8 + w + (p - (q + 8 + w))]) == "{\"id\":"[p - (q + 8 + w)];
    } else {
      assert IsDigit(s[p]);
    }
  }

  lemma ImageBlockStartsWithW(s: string, p: nat)
    requires p <= |s| && ImageBlockAt(s, p).Some?
    ensures p < |s| && Lower(s[p]) == 'w'
  {
    assert Lower(s[p + 0]) == "wp:image"[0];
  }

  /** A wp:image match cannot start inside another one. */
  lemma ImageBlocksDisjoint(s: string, q: nat, p: nat)
    requires q < p < |s| && ImageBlockAt(s, q).Some? && ImageBlockAt(s, p).Some?
    ensures ImageBlockAt(s, q).value.end <= p
  {
    if p < ImageBlockAt(s, q).value.end {
      ImageBlockStartsWithW(s, p);
      ImageBlockInterior(s, q, p);
      assert false;
    }
  }

  /** One step of the scan: a match at pos is reported and the scan resumes where it ends. */
  lemma ScanMatched(pat: Pattern, s: string, pos: nat)
    requires pos < |s| && MatchAt(pat, s, pos).Some?
    ensures Scan(pat, s, pos) == [MatchAt(pat, s, pos).value.capture] + Scan(pat, s, MatchAt(pat, s, pos).value.end)
  {
  }

  /** One step of the scan: without a match at pos the scan moves on by one. */
  lemma ScanUnmatched(pat: Pattern, s: string, pos: nat)
    requires pos < |s| && MatchAt(pat, s, pos).None?
    ensures Scan(pat, s, pos) == Scan(pat, s, pos + 1)
  {
  }

  lemma InCons(x: string, c: string, rest: seq<string>)
    requires c == x || c in rest
    ensures c in [x] + rest
  {
    if c == x {
      assert ([x] + rest)[0] == c;
    } else {
      var i :| 0 <= i < |rest| && rest[i] == c;
      assert ([x] + rest)[i + 1] == c;
    }
  }

  lemma ImageBlockMatch(s: string, pos: nat)
    requires pos <= |s|
    ensures MatchAt(ImageBlock, s, pos) == ImageBlockAt(s, pos)
  {
  }

  lemma FoundHere(s: string, p: nat)
    requires p < |s| && ImageBlockAt(s, p).Some?
    ensures ImageBlockAt(s, p).value.capture in Scan(ImageBlock, s, p)
  {
    ImageBlockMatch(s, p);
    ScanMatched(ImageBlock, s, p);
    InCons(ImageBlockAt(s, p).value.capture, ImageBlockAt(s, p).value.capture,
           Scan(ImageBlock, s, ImageBlockAt(s, p).value.end));
  }

  /** Where the wp:image scan resumes after pos: past a match there, else one further. */
  function ResumeAt(s: string, pos: nat): (r: nat)
    requires pos < |s|
    ensures pos < r <= |s|
  {
    if ImageBlockAt(s, pos).Some? then ImageBlockAt(s, pos).value.end else pos + 1
  }

  /** A match at p is not skipped by the step at pos < p. */
  lemma ResumeBeforeMatch(s: string, pos: nat, p: nat)
    requires pos < p < |s| && ImageBlockAt(s, p).Some?
    ensures ResumeAt(s, pos) <= p
  {
    if ImageBlockAt(s, pos).Some? {
      ImageBlocksDisjoint(s, pos, p);
    }
  }

  /** What the scan reports from where it resumes, it reports from pos. */
  lemma FoundAfterStep(s: string, pos: nat, c: string)
    requires pos < |s| && c in Scan(ImageBlock, s, ResumeAt(s, pos))
    ensures c in Scan(ImageBlock, s, pos)
  {
    ImageBlockMatch(s, pos);
    if ImageBlockAt(s, pos).Some? {
      ScanMatched(ImageBlock, s, pos);
      InCons(ImageBlockAt(s, pos).value.capture, c, Scan(ImageBlock, s, ImageBlockAt(s, pos).value.end));
    } else {
      ScanUnmatched(ImageBlock, s, pos);
    }
  }

  /** wp:image matches never overlap, so every one of them is reported. */
  lemma {:induction false} ImageBlockFound(s: string, pos: nat, p: nat)
    requires pos <= p < |s|
    requires ImageBlockAt(s, p).Some?
    ensures ImageBlockAt(s, p).value.capture in Scan(ImageBlock, s, pos)
    decreases |s| - pos
  {
    if pos == p {
      FoundHere(s, p);
    } else {
      ResumeBeforeMatch(s, pos, p);
      ImageBlockFound(s, ResumeAt(s, pos), p);
      FoundAfterStep(s, pos, ImageBlockAt(s, p).value.capture);
    }
  }
}
