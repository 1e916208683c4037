/**
 * The pure half of the user-facing submission path: finding a Shopee link in free text,
 * telling a submission from a support request, classifying the resolved URL by its shape,
 * and normalising it to the key under which a video is stored.
 */
module Links {
  import opened Wrappers
  import opened Text

  /** All of `s` is whitespace (what `str.strip()` turns into the empty string). */
  predicate IsBlank(s: string) {
    forall i :: 0 <= i < |s| ==> IsSpace(s[i])
  }

  // ---------------------------------------------------------------------------
  // re.search(r'https?://[^\s]*(shopee|shp\.ee)[^\s]*', text, re.IGNORECASE)

  /** Where `https?://` ends if it occurs at `i` (case ignored). */
  function SchemeEnd(s: string, i: nat): Option<nat> {
    if StartsWithIgnoringCase(s, i, "https://") then Some(i + 8)
    else if StartsWithIgnoringCase(s, i, "http://") then Some(i + 7)
    else None
  }

  /** `shopee` or `shp.ee` occurs at `p` (case ignored). */
  predicate HostMarkerAt(s: string, p: nat) {
    StartsWithIgnoringCase(s, p, "shopee") || StartsWithIgnoringCase(s, p, "shp.ee")
  }

  /**
   * The link pattern matches at `i`: the scheme is there, and a host marker lies after it
   * inside the run of non-whitespace characters that starts at `i` (both `[^\s]*` stay inside
   * that run).
   */
  predicate MatchesAt(s: string, i: nat) {
    && i <= |s|
    && SchemeEnd(s, i).Some?
    && exists p :: SchemeEnd(s, i).value <= p && p + 6 <= RunEnd(s, i, NotSpace) && HostMarkerAt(s, p)
  }

  /**
   * The regular expression as written, tried at `i` with the match ending at `e`: the scheme,
   * then non-whitespace up to a host marker at `p`, then non-whitespace up to `e`.
   */
  ghost predicate LinkPatternWith(s: string, i: nat, p: nat, e: nat) {
    && SchemeEnd(s, i).Some?
    && SchemeEnd(s, i).value <= p && p + 6 <= e <= |s|
    && HostMarkerAt(s, p)
    && forall j :: SchemeEnd(s, i).value <= j < e ==> !IsSpace(s[j])
  }

  /** The characters of a matched scheme are not whitespace. */
  lemma SchemeIsNotSpace(s: string, i: nat)
    requires SchemeEnd(s, i).Some?
    ensures forall j :: i <= j < SchemeEnd(s, i).value ==> !IsSpace(s[j])
  {
    var pattern := if StartsWithIgnoringCase(s, i, "https://") then "https://" else "http://";
    forall j | i <= j < SchemeEnd(s, i).value ensures !IsSpace(s[j]) {
      assert MatchesIgnoringCase(s[i + (j - i)], pattern[j - i]);
    }
  }

  /** `MatchesAt` holds exactly when the regular expression can match starting at `i`. */
  lemma MatchesAtIsLinkPattern(s: string, i: nat)
    requires i <= |s|
    ensures MatchesAt(s, i) <==> exists p: nat, e: nat :: LinkPatternWith(s, i, p, e)
  {
    if MatchesAt(s, i) {
      var k := SchemeEnd(s, i).value;
      var p :| k <= p && p + 6 <= RunEnd(s, i, NotSpace) && HostMarkerAt(s, p);
      assert LinkPatternWith(s, i, p, RunEnd(s, i, NotSpace));
    }
    if exists p: nat, e: nat :: LinkPatternWith(s, i, p, e) {
      var p: nat, e: nat :| LinkPatternWith(s, i, p, e);
      SchemeIsNotSpace(s, i);
      var r := RunEnd(s, i, NotSpace);
      if r < e {
        assert false;
      }
    }
  }

  /** The leftmost index at or after `i` where the pattern matches, as `re.search` scans. */
  function SearchFrom(s: string, i: nat): (r: Option<nat>)
    requires i <= |s|
    ensures r.Some? ==> i <= r.value < |s| && MatchesAt(s, r.value)
    ensures r.Some? ==> forall j :: i <= j < r.value ==> !MatchesAt(s, j)
    ensures r.None? ==> forall j :: i <= j <= |s| ==> !MatchesAt(s, j)
    decreases |s| - i
  {
    if i == |s| then None
    else if MatchesAt(s, i) then Some(i)
    else SearchFrom(s, i + 1)
  }

  /**
   * `match.group(0)`: the text of the leftmost match. Both `[^\s]*` are greedy, so the match
   * runs to the end of its run of non-whitespace.
   */
  function FindShopeeLink(text: string): (m: Option<string>)
    ensures m.None? <==> SearchFrom(text, 0).None?
    ensures m.Some? ==>
      var i := SearchFrom(text, 0).value;
      m.value == text[i..RunEnd(text, i, NotSpace)]
    ensures m.Some? ==> m.value != [] && Contains(text, m.value)
    ensures m.Some? ==> forall k :: 0 <= k < |m.value| ==> !IsSpace(m.value[k])
  {
    match SearchFrom(text, 0)
    case None => None
    case Some(i) =>
      var e := RunEnd(text, i, NotSpace);
      assert text[i..][..e - i] == text[i..e];
      Some(text[i..e])
  }

  /** What `handle_user_message` does with a text message. */
  datatype Route =
    | SupportRequest                 // no link: forwarded to the admins
    | SupportWithLink(link: string)  // a link and more text: forwarded to the admins
    | ProductSubmission(link: string)

  /**
   * The routing decision: no link means support; a link is a submission only when deleting
   * every occurrence of its text from the message leaves nothing but whitespace.
   */
  function RouteMessage(text: string): (r: Route)
    ensures r.SupportRequest? <==> FindShopeeLink(text).None?
    ensures !r.SupportRequest? ==> FindShopeeLink(text) == Some(r.link)
    ensures r.ProductSubmission? ==> IsBlank(RemoveAll(text, r.link))
    ensures r.SupportWithLink? ==> !IsBlank(RemoveAll(text, r.link))
  {
    match FindShopeeLink(text)
    case None => SupportRequest
    case Some(link) =>
      if Strip(RemoveAll(text, link)) != [] then SupportWithLink(link) else ProductSubmission(link)
  }

  /** No match can start on a whitespace character: the scheme begins with `h`. */
  lemma NoMatchAtSpace(s: string, i: nat)
    requires i < |s| && IsSpace(s[i])
    ensures !MatchesAt(s, i)
  {
    assert !MatchesIgnoringCase(s[i], "https://"[0]);
    assert !MatchesIgnoringCase(s[i], "http://"[0]);
  }

  lemma SchemeInContext(pre: string, x: string, post: string)
    requires |x| >= 8
    ensures SchemeEnd(pre + x + post, |pre|).Some? == SchemeEnd(x, 0).Some?
    ensures SchemeEnd(x, 0).Some? ==> SchemeEnd(pre + x + post, |pre|).value == |pre| + SchemeEnd(x, 0).value
  {
    StartsWithInContext(pre, x, post, 0, "https://");
    StartsWithInContext(pre, x, post, 0, "http://");
  }

  lemma MarkerInContext(pre: string, x: string, post: string, p: nat)
    requires p + 6 <= |x|
    ensures HostMarkerAt(pre + x + post, |pre| + p) == HostMarkerAt(x, p)
  {
    StartsWithInContext(pre, x, post, p, "shopee");
    StartsWithInContext(pre, x, post, p, "shp.ee");
  }

  lemma RunInContext(pre: string, x: string, post: string)
    requires IsBlank(post)
    requires forall k :: 0 <= k < |x| ==> NotSpace(x[k])
    ensures RunEnd(pre + x + post, |pre|, NotSpace) == |pre| + |x|
  {
    var text := pre + x + post;
    var n := |pre|;
    forall j | n <= j < n + |x|
      ensures NotSpace(text[j])
    {
      assert text[j] == x[j - n];
    }
    if n + |x| < |text| {
      assert text[n + |x|] == post[0];
    }
    RunEndIsUnique(text, n, n + |x|, NotSpace);
  }

  /** A link that matches on its own still matches, with the same extent, inside whitespace. */
  lemma MatchInContext(pre: string, link: string, post: string)
    requires IsBlank(post)
    requires MatchesAt(link, 0) && RunEnd(link, 0, NotSpace) == |link|
    ensures MatchesAt(pre + link + post, |pre|)
    ensures RunEnd(pre + link + post, |pre|, NotSpace) == |pre| + |link|
  {
    var k := SchemeEnd(link, 0).value;
    var p :| k <= p && p + 6 <= |link| && HostMarkerAt(link, p);
    SchemeInContext(pre, link, post);
    MarkerInContext(pre, link, post, p);
    RunInContext(pre, link, post);
    assert |pre| + k <= |pre| + p;
  }

  /** The link of a message that is one link, whitespace around it allowed, is that link. */
  lemma FindsBareLink(pre: string, link: string, post: string)
    requires IsBlank(pre) && IsBlank(post)
    requires MatchesAt(link, 0) && RunEnd(link, 0, NotSpace) == |link|
    ensures FindShopeeLink(pre + link + post) == Some(link)
  {
    var text := pre + link + post;
    var n := |pre|;
    MatchInContext(pre, link, post);
    forall j | 0 <= j < n
      ensures !MatchesAt(text, j)
    {
      assert text[j] == pre[j];
      NoMatchAtSpace(text, j);
    }
    assert SearchFrom(text, 0) == Some(n);
    assert text[n..n + |link|] == link;
  }

  /** Deleting the link from such a message leaves the whitespace around it. */
  lemma RemoveBareLink(pre: string, link: string, post: string)
    requires IsBlank(pre) && IsBlank(post)
    requires link != [] && !IsSpace(link[0])
    ensures RemoveAll(pre + link + post, link) == pre + post
  {
    assert pre + link + post == pre + (link + post);
    RemoveAllAfterBlank(pre, link + post, link);
    RemoveAllDropsLeading(link, post);
    RemoveAllAfterBlank(post, [], link);
    assert post + [] == post;
  }

  /**
   * A message that is one link and nothing else, whitespace around it allowed, is a
   * submission of exactly that link.
   */
  lemma BareLinkIsSubmission(pre: string, link: string, post: string)
    requires IsBlank(pre) && IsBlank(post)
    requires MatchesAt(link, 0) && RunEnd(link, 0, NotSpace) == |link|
    ensures RouteMessage(pre + link + post) == ProductSubmission(link)
  {
    FindsBareLink(pre, link, post);
    RemoveBareLink(pre, link, post);
    var rest := pre + post;
    assert IsBlank(rest) by {
      forall i | 0 <= i < |rest|
        ensures IsSpace(rest[i])
      {
        if i < |pre| { assert rest[i] == pre[i]; } else { assert rest[i] == post[i - |pre|]; }
      }
    }
  }

  // ---------------------------------------------------------------------------
  // URL shape

  /** `re.search(r'/\w+/\d+/\d+', s)` as the regex defines it, tried at `i`. */
  ghost predicate PathPatternAt(s: string, i: nat) {
    exists a: nat, b: nat :: PathPatternWith(s, i, a, b)
  }

  predicate PathPatternWith(s: string, i: nat, a: nat, b: nat) {
    && i + 1 < a && a + 1 < b && b + 1 < |s|
    && s[i] == '/'
    && (forall j :: i + 1 <= j < a ==> IsWordChar(s[j]))
    && s[a] == '/'
    && (forall j :: a + 1 <= j < b ==> IsDigit(s[j]))
    && s[b] == '/'
    && IsDigit(s[b + 1])
  }

  /**
   * The same search, computed the way the backtracking matcher actually proceeds: every
   * `\w+` and `\d+` run is taken whole, since `/` belongs to neither class.
   */
  predicate NumericPathAt(s: string, i: nat) {
    && i + 1 <= |s| && s[i] == '/'
    && var a := RunEnd(s, i + 1, IsWordChar);
       && a > i + 1 && a < |s| && s[a] == '/'
       && var b := RunEnd(s, a + 1, IsDigit);
          b > a + 1 && b + 1 < |s| && s[b] == '/' && IsDigit(s[b + 1])
  }

  /** The scan finds the pattern at `i` exactly when the regex matches there. */
  lemma NumericPathAtIsPathPattern(s: string, i: nat)
    ensures NumericPathAt(s, i) <==> PathPatternAt(s, i)
  {
    if NumericPathAt(s, i) {
      var a := RunEnd(s, i + 1, IsWordChar);
      var b := RunEnd(s, a + 1, IsDigit);
      assert PathPatternWith(s, i, a, b);
    }
    if PathPatternAt(s, i) {
      var a: nat, b: nat :| PathPatternWith(s, i, a, b);
      RunEndIsUnique(s, i + 1, a, IsWordChar);
      RunEndIsUnique(s, a + 1, b, IsDigit);
    }
  }

  predicate HasNumericPath(s: string) {
    exists i :: 0 <= i < |s| && NumericPathAt(s, i)
  }

  /** `"/video/" in resolved_link.lower()`. */
  predicate IsVideoLink(resolved: string) {
    Contains(Lower(resolved), "/video/")
  }

  /** The product-shape test of `handle_user_message`. */
  predicate LooksLikeProduct(resolved: string) {
    var lower := Lower(resolved);
    || Contains(lower, "/product/")
    || Contains(lower, "/item/")
    || Contains(lower, "affiliation-i.")
    || Contains(lower, "-i.")
    || HasNumericPath(resolved)
  }

  datatype LinkKind = VideoLink | ProductLink | UnrecognisedLink

  /** A resolved link is a product only if it is not a video link and has a product shape. */
  function Classify(resolved: string): (k: LinkKind)
    ensures k == VideoLink <==> IsVideoLink(resolved)
    ensures k == ProductLink <==> !IsVideoLink(resolved) && LooksLikeProduct(resolved)
    ensures k == UnrecognisedLink <==> !IsVideoLink(resolved) && !LooksLikeProduct(resolved)
  {
    if IsVideoLink(resolved) then VideoLink
    else if LooksLikeProduct(resolved) then ProductLink
    else UnrecognisedLink
  }

  // ---------------------------------------------------------------------------
  // Normalisation: link.split('?')[0]

  /**
   * The text before the first `?`. The three properties below determine it: a prefix of `s`,
   * free of `?`, and followed in `s` by a `?` unless it is all of `s`.
   */
  function Normalize(s: string): (r: string)
    ensures r <= s
    ensures '?' !in r
    ensures |r| < |s| ==> s[|r|] == '?'
  {
    if s == [] || s[0] == '?' then [] else [s[0]] + Normalize(s[1..])
  }

  /** Any string with the three properties is the normalised form. */
  lemma NormalizeIsUnique(s: string, r: string)
    requires r <= s && '?' !in r
    requires |r| < |s| ==> s[|r|] == '?'
    ensures r == Normalize(s)
  {
  }

  /** A key without `?` is its own normalised form. */
  lemma {:induction false} NormalizeKeepsKey(s: string)
    requires '?' !in s
    ensures Normalize(s) == s
  {
    if s != [] {
      assert s[0] in s;
      assert forall c :: c in s[1..] ==> c in s;
      NormalizeKeepsKey(s[1..]);
    }
  }

  /** Normalising twice gives the same key as normalising once. */
  lemma NormalizeIdempotent(s: string)
    ensures Normalize(Normalize(s)) == Normalize(s)
  {
    NormalizeKeepsKey(Normalize(s));
  }
}
