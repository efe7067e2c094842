/** Social-link extraction (`extract_social_media`): for each of four
    platforms, `re.search` for a literal domain prefix followed by a greedy,
    non-empty run of allowed characters; the first match, or `None`, goes into
    a four-slot dictionary. */
module Social {
  import opened Common

  datatype Platform = Facebook | Instagram | LinkedIn | TikTok

  /** The platforms in the order the pattern dictionary lists them. */
  const Platforms: seq<Platform> := [Facebook, Instagram, LinkedIn, TikTok]

  /** The four keys of the returned dictionary. */
  const AllPlatforms: set<Platform> := {Facebook, Instagram, LinkedIn, TikTok}

  /** The literal part of each pattern (`facebook\.com/`, ..., `tiktok\.com/@`). */
  function Prefix(p: Platform): string {
    match p
    case Facebook => "facebook.com/"
    case Instagram => "instagram.com/"
    case LinkedIn => "linkedin.com/"
    case TikTok => "tiktok.com/@"
  }

  /** The character class after the prefix: `[\w\-]` for LinkedIn, `[\w\.]`
      for the other three. */
  predicate InClass(p: Platform, c: char) {
    IsWordChar(c) || (if p == LinkedIn then c == '-' else c == '.')
  }

  /** The pattern of `p` can start a match at position `i` of `s`: the prefix
      is there and at least one class character follows it. */
  predicate MatchStartsAt(p: Platform, s: string, i: int) {
    0 <= i && i + |Prefix(p)| < |s| &&
    s[i..i + |Prefix(p)|] == Prefix(p) && InClass(p, s[i + |Prefix(p)|])
  }

  /** The pattern of `p` matches nowhere in `s`. */
  ghost predicate NoLink(p: Platform, s: string) {
    forall i :: !MatchStartsAt(p, s, i)
  }

  /** The greedy `+`: the end of the longest run of class characters from `j`. */
  function RunEnd(p: Platform, s: string, j: nat): (e: nat)
    requires j <= |s|
    decreases |s| - j
    ensures j <= e <= |s|
    ensures forall m :: j <= m < e ==> InClass(p, s[m])
    ensures e == |s| || !InClass(p, s[e])
  {
    if j < |s| && InClass(p, s[j]) then RunEnd(p, s, j + 1) else j
  }

  /** The leftmost position from `i` on where the pattern of `p` can start. */
  function FirstMatch(p: Platform, s: string, i: nat): (r: Option<nat>)
    decreases |s| - i
    ensures r.Some? ==> i <= r.value && MatchStartsAt(p, s, r.value)
    ensures r.Some? ==> forall j :: i <= j < r.value ==> !MatchStartsAt(p, s, j)
    ensures r.None? ==> forall j :: i <= j ==> !MatchStartsAt(p, s, j)
  {
    if i + |Prefix(p)| >= |s| then None
    else if MatchStartsAt(p, s, i) then Some(i)
    else FirstMatch(p, s, i + 1)
  }

  /** `s[i..e]` is the match `re.search` reports: it starts at the leftmost
      position where the pattern can match, and its run of class characters
      is non-empty and cannot be extended. */
  ghost predicate IsLeftmostLongest(p: Platform, s: string, i: int, e: int) {
    && MatchStartsAt(p, s, i)
    && (forall j :: 0 <= j < i ==> !MatchStartsAt(p, s, j))
    && i + |Prefix(p)| < e <= |s|
    && (forall m :: i + |Prefix(p)| <= m < e ==> InClass(p, s[m]))
    && (e == |s| || !InClass(p, s[e]))
  }

  /** Where `re.search` finds the pattern of `p` in `s`: the start and end of
      the leftmost-longest match, or `None`. */
  function SearchSpan(p: Platform, s: string): (r: Option<(nat, nat)>)
    ensures r.None? <==> NoLink(p, s)
    ensures r.Some? ==> IsLeftmostLongest(p, s, r.value.0, r.value.1)
  {
    var first := FirstMatch(p, s, 0);
    if first.None? then
      None
    else
      var i := first.value;
      var e := RunEnd(p, s, i + |Prefix(p)|);
      assert IsLeftmostLongest(p, s, i, e);
      Some((i, e))
  }

  /** `re.search(pattern, s).group(0)` for the pattern of `p`, or `None`. */
  function Search(p: Platform, s: string): (r: Option<string>)
    ensures r.None? <==> NoLink(p, s)
    ensures r.Some? ==> |Prefix(p)| < |r.value| && r.value[..|Prefix(p)|] == Prefix(p)
  {
    match SearchSpan(p, s)
    case None => None
    case Some((i, e)) =>
      assert s[i..e][..|Prefix(p)|] == s[i..i + |Prefix(p)|];
      Some(s[i..e])
  }

  /** At most one match is leftmost and longest. */
  lemma LeftmostLongestUnique(p: Platform, s: string, i: int, e: int, i': int, e': int)
    requires IsLeftmostLongest(p, s, i, e) && IsLeftmostLongest(p, s, i', e')
    ensures i == i' && e == e'
  {
  }

  /** `Search` reports exactly the leftmost-longest match when there is one,
      and `None` exactly when the pattern matches nowhere. */
  lemma SearchFindsLeftmostLongest(p: Platform, s: string, i: int, e: int)
    requires IsLeftmostLongest(p, s, i, e)
    ensures Search(p, s) == Some(s[i..e])
  {
    var span := SearchSpan(p, s);
    LeftmostLongestUnique(p, s, i, e, span.value.0, span.value.1);
  }

  /** A reported link starts with the platform's prefix, and everything after
      the prefix is a non-empty run of class characters; `None` means the
      pattern matches nowhere. */
  lemma SearchShape(p: Platform, s: string)
    ensures Search(p, s).None? <==> NoLink(p, s)
    ensures Search(p, s).Some? ==>
      var v := Search(p, s).value;
      |Prefix(p)| < |v| && v[..|Prefix(p)|] == Prefix(p) &&
      forall m :: |Prefix(p)| <= m < |v| ==> InClass(p, v[m])
  {
    var span := SearchSpan(p, s);
    if span.Some? {
      var (i, e) := span.value;
      var v := s[i..e];
      assert Search(p, s) == Some(v);
      forall m | |Prefix(p)| <= m < |v|
        ensures InClass(p, v[m])
      {
        assert v[m] == s[i + m];
      }
    }
  }

  /** The position of each platform in `Platforms`. */
  function Index(p: Platform): (n: nat)
    ensures n < |Platforms| && Platforms[n] == p
  {
    match p
    case Facebook => 0
    case Instagram => 1
    case LinkedIn => 2
    case TikTok => 3
  }

  /** The four keys are every platform there is. */
  lemma AllPlatformsComplete()
    ensures forall p :: p in AllPlatforms
  {
    forall p ensures p in AllPlatforms {
      match p
      case Facebook =>
      case Instagram =>
      case LinkedIn =>
      case TikTok =>
    }
  }

  /** The dictionary `extract_social_media(text, website)` returns. */
  function SocialMedia(text: string): (found: map<Platform, Option<string>>)
    ensures found.Keys == AllPlatforms
    ensures forall p :: p in found
  {
    AllPlatformsComplete();
    map p | p in AllPlatforms :: Search(p, text)
  }

  /** Each slot of the dictionary holds that platform's search result. */
  lemma SocialMediaAt(text: string, p: Platform)
    ensures SocialMedia(text)[p] == Search(p, text)
  {
  }

  /** The dictionary once the loop has visited the first `k` platforms, when
      `look` gives each platform's search result: the visited platforms hold
      their result, the others still `None`. */
  function Filled(look: Platform -> Option<string>, k: nat): (found: map<Platform, Option<string>>)
    ensures found.Keys == AllPlatforms
    ensures forall p :: p in found
  {
    AllPlatformsComplete();
    map p | p in AllPlatforms :: if Index(p) < k then look(p) else None
  }

  /** Before the loop every slot is `None`. */
  lemma FilledNone(look: Platform -> Option<string>)
    ensures Filled(look, 0) == map[Facebook := None, Instagram := None, LinkedIn := None, TikTok := None]
  {
  }

  /** One turn of the loop stores the platform's result, if any, and changes
      nothing else. */
  lemma FilledStep(look: Platform -> Option<string>, k: nat)
    requires k < |Platforms|
    ensures look(Platforms[k]).Some? ==>
              Filled(look, k + 1) == Filled(look, k)[Platforms[k] := look(Platforms[k])]
    ensures look(Platforms[k]).None? ==> Filled(look, k + 1) == Filled(look, k)
  {
    assert Index(Platforms[k]) == k;
  }

  /** After the last platform, every platform holds its search result: the
      dictionary the function returns. */
  lemma FilledAll(text: string)
    ensures Filled(p => Search(p, text), |Platforms|) == SocialMedia(text)
  {
  }

  /** `extract_social_media(text, website)`: start from four `None` slots and,
      for each platform in turn, store the first match of its pattern. The
      result depends on `text` alone; `website` is not used. */
  method ExtractSocialMedia(text: string, website: string) returns (found: map<Platform, Option<string>>)
    ensures found.Keys == AllPlatforms
    ensures found == SocialMedia(text)
  {
    ghost var look := p => Search(p, text);
    found := map[Facebook := None, Instagram := None, LinkedIn := None, TikTok := None];
    FilledNone(look);
    var k := 0;
    while k < |Platforms|
      invariant 0 <= k <= |Platforms|
      invariant found == Filled(look, k)
    {
      var platform := Platforms[k];
      var match_ := Search(platform, text);
      FilledStep(look, k);
      if match_.Some? {
        found := found[platform := match_];
      }
      k := k + 1;
    }
    FilledAll(text);
  }
}
