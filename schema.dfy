/**
 * The input schema of the link generator: the character-class rules for UTM values
 * and webinar postfixes, the closed lists of base URLs, page types and inner pages,
 * and the object schemas built from them.
 */
module Schema {
  import opened Wrappers

  /** The regular expression `^[C]+$` for a character class `C`. */
  predicate OneOrMore(cls: char -> bool, s: string)
  {
    |s| >= 1 && cls(s[0]) && (|s| == 1 || OneOrMore(cls, s[1..]))
  }

  /** `^[C]+$` accepts exactly the non-empty strings made of characters of `C`. */
  lemma {:induction false} OneOrMoreEveryChar(cls: char -> bool, s: string)
    ensures OneOrMore(cls, s) <==> |s| > 0 && forall i :: 0 <= i < |s| ==> cls(s[i])
  {
    if |s| > 1 {
      OneOrMoreEveryChar(cls, s[1..]);
      assert forall i :: 1 <= i < |s| ==> s[i] == s[1..][i - 1];
    }
  }

  predicate IsAsciiAlphanumeric(c: char) {
    'a' <= c <= 'z' || 'A' <= c <= 'Z' || '0' <= c <= '9'
  }

  /** The class `[a-zA-Z0-9_-]`. */
  predicate IsUtmChar(c: char) {
    IsAsciiAlphanumeric(c) || c == '_' || c == '-'
  }

  /** The class `[a-zA-Z0-9-]`. */
  predicate IsPostfixChar(c: char) {
    IsAsciiAlphanumeric(c) || c == '-'
  }

  /** `utmPattern`, `/^[a-zA-Z0-9_-]+$/`. */
  predicate MatchesUtmPattern(s: string) {
    OneOrMore(IsUtmChar, s)
  }

  /** The webinar postfix pattern, `/^[a-zA-Z0-9-]+$/`. */
  predicate MatchesPostfixPattern(s: string) {
    OneOrMore(IsPostfixChar, s)
  }

  /** A UTM value is a non-empty string of ASCII letters, digits, `_` and `-`. */
  lemma UtmPatternChars(s: string)
    ensures MatchesUtmPattern(s) <==> |s| > 0 && forall i :: 0 <= i < |s| ==> IsUtmChar(s[i])
  {
    OneOrMoreEveryChar(IsUtmChar, s);
  }

  /** A webinar postfix is a non-empty string of ASCII letters, digits and `-`. */
  lemma PostfixPatternChars(s: string)
    ensures MatchesPostfixPattern(s) <==> |s| > 0 && forall i :: 0 <= i < |s| ==> IsPostfixChar(s[i])
  {
    OneOrMoreEveryChar(IsPostfixChar, s);
  }

  /** The postfix rule is the UTM rule with `_` taken out of the alphabet. */
  lemma PostfixIsUtmWithoutUnderscore(s: string)
    ensures MatchesPostfixPattern(s) <==> MatchesUtmPattern(s) && '_' !in s
  {
    UtmPatternChars(s);
    PostfixPatternChars(s);
    if MatchesUtmPattern(s) && '_' !in s {
      forall i | 0 <= i < |s| ensures IsPostfixChar(s[i]) {
        assert s[i] in s;
      }
    }
  }

  /** The inclusion is strict: `a_b` is a UTM value but not a postfix. */
  lemma UnderscoreSeparatesPatterns()
    ensures MatchesUtmPattern("a_b") && !MatchesPostfixPattern("a_b")
  {
    PostfixIsUtmWithoutUnderscore("a_b");
    assert "a_b"[1] == '_';
    assert MatchesUtmPattern("b");
  }

  const AppBaseUrlPrefix := "https://axevil.app.link/"

  /** `appBaseUrls`. */
  const AppBaseUrls: seq<string> := [
    "https://axevil.app.link/tgac",
    "https://axevil.app.link/tgp",
    "https://axevil.app.link/tgmb",
    "https://axevil.app.link/tgwb",
    "https://axevil.app.link/tgx",
    "https://axevil.app.link/yt",
    "https://axevil.app.link/ytx",
    "https://axevil.app.link/igac",
    "https://axevil.app.link/igex",
    "https://axevil.app.link/ntn",
    "https://axevil.app.link/web",
    "https://axevil.app.link/eml",
    "https://axevil.app.link/pres",
    "https://axevil.app.link/event",
    "https://axevil.app.link/art",
    "https://axevil.app.link/ai",
    "https://axevil.app.link/tc"
  ]

  /** `pageTypes`. */
  const PageTypes: seq<string> := [
    "idea", "portfolio", "order", "news", "profile", "assistant", "referral", "axevil-investments"
  ]

  /** `innerPageTypes`. */
  const InnerPageTypes: seq<string> := ["updates", "rounds", "documents"]

  predicate Distinct(xs: seq<string>) {
    forall i, j :: 0 <= i < j < |xs| ==> xs[i] != xs[j]
  }

  /** The paths after the common prefix, in list order. */
  const AppBaseUrlPaths: seq<string> := [
    "tgac", "tgp", "tgmb", "tgwb", "tgx", "yt", "ytx", "igac", "igex",
    "ntn", "web", "eml", "pres", "event", "art", "ai", "tc"
  ]

  /** Every base URL is the common prefix followed by one path. */
  lemma AppBaseUrlsFromPaths()
    ensures |AppBaseUrls| == |AppBaseUrlPaths| == 17
    ensures forall i :: 0 <= i < 17 ==> AppBaseUrls[i] == AppBaseUrlPrefix + AppBaseUrlPaths[i]
  {
  }

  /** All 17 base URLs live under `https://axevil.app.link/`. */
  lemma AppBaseUrlsShareHost()
    ensures |AppBaseUrls| == 17
    ensures forall i :: 0 <= i < |AppBaseUrls| ==> AppBaseUrls[i][..|AppBaseUrlPrefix|] == AppBaseUrlPrefix
  {
    AppBaseUrlsFromPaths();
    forall i | 0 <= i < |AppBaseUrls|
      ensures AppBaseUrls[i][..|AppBaseUrlPrefix|] == AppBaseUrlPrefix
    {
      assert (AppBaseUrlPrefix + AppBaseUrlPaths[i])[..|AppBaseUrlPrefix|] == AppBaseUrlPrefix;
    }
  }

  /** The 17 base URLs are pairwise distinct. */
  lemma AppBaseUrlsDistinct()
    ensures Distinct(AppBaseUrls)
  {
    AppBaseUrlsFromPaths();
    assert Distinct(AppBaseUrlPaths);
    forall i, j | 0 <= i < j < |AppBaseUrls| ensures AppBaseUrls[i] != AppBaseUrls[j] {
      assert AppBaseUrls[i][|AppBaseUrlPrefix|..] == AppBaseUrlPaths[i];
      assert AppBaseUrls[j][|AppBaseUrlPrefix|..] == AppBaseUrlPaths[j];
    }
  }

  /** The fields a schema can complain about. */
  datatype Field = BaseUrl | Campaign | Feature | PageType | PageId | InitialInnerPage | Postfix

  /** Why a field was refused: absent though required, outside its enum, or not matching its pattern. */
  datatype IssueCode = Required | InvalidEnumValue | InvalidString(message: string)

  datatype Issue = Issue(path: Field, code: IssueCode)

  /** The message both UTM-pattern checks report. */
  const PatternMessage := "Допускаются только буквы, цифры и дефис"

  /** An object presented to `appLinkSchema`: any key may be missing. */
  datatype AppLinkInput = AppLinkInput(
    baseUrl: Option<string>,
    campaign: Option<string>,
    feature: Option<string>,
    pageType: Option<string>,
    pageId: Option<string>,
    initialInnerPage: Option<string>)

  /** What `appLinkSchema` accepts. */
  predicate ConformsToAppLinkSchema(p: AppLinkInput) {
    && p.baseUrl.Some? && p.baseUrl.value in AppBaseUrls
    && p.campaign.Some? && MatchesUtmPattern(p.campaign.value)
    && (p.feature.Some? ==> MatchesUtmPattern(p.feature.value))
    && (p.pageType.Some? ==> p.pageType.value in PageTypes)
    && (p.initialInnerPage.Some? ==> p.initialInnerPage.value in InnerPageTypes)
  }

  /**
   * What a `z.enum` field reports: an issue exactly when the field is missing though
   * required, or present with a value outside the enum.
   */
  function EnumIssue(f: Field, v: Option<string>, required: bool, members: seq<string>): (r: seq<Issue>)
    ensures r == [] <==> (v.None? && !required) || (v.Some? && v.value in members)
    ensures |r| <= 1
    ensures r != [] ==> r[0] == Issue(f, if v.None? then Required else InvalidEnumValue)
    ensures forall k :: 0 <= k < |r| ==> r[k].path == f
  {
    match v
    case None => if required then [Issue(f, Required)] else []
    case Some(x) => if x in members then [] else [Issue(f, InvalidEnumValue)]
  }

  /**
   * What a `z.string().regex(...)` field reports: an issue exactly when the field is
   * missing though required, or present with a value the pattern refuses.
   */
  function PatternIssue(f: Field, v: Option<string>, required: bool, matches: string -> bool): (r: seq<Issue>)
    ensures r == [] <==> (v.None? && !required) || (v.Some? && matches(v.value))
    ensures |r| <= 1
    ensures r != [] ==> r[0] == Issue(f, if v.None? then Required else InvalidString(PatternMessage))
    ensures forall k :: 0 <= k < |r| ==> r[k].path == f
  {
    match v
    case None => if required then [Issue(f, Required)] else []
    case Some(x) => if matches(x) then [] else [Issue(f, InvalidString(PatternMessage))]
  }

  /** Whether some issue concerns the field. */
  predicate Mentions(issues: seq<Issue>, f: Field) {
    exists k :: 0 <= k < |issues| && issues[k].path == f
  }

  lemma MentionsAppend(a: seq<Issue>, b: seq<Issue>, f: Field)
    ensures Mentions(a + b, f) <==> Mentions(a, f) || Mentions(b, f)
  {
    if Mentions(a + b, f) {
      var k :| 0 <= k < |a + b| && (a + b)[k].path == f;
      if k >= |a| {
        assert b[k - |a|] == (a + b)[k];
      }
    }
    if Mentions(a, f) {
      var k :| 0 <= k < |a| && a[k].path == f;
      assert (a + b)[k] == a[k];
    }
    if Mentions(b, f) {
      var k :| 0 <= k < |b| && b[k].path == f;
      assert (a + b)[|a| + k] == b[k];
    }
  }

  /** A field is mentioned by the issues of five checks exactly when one of them mentions it. */
  lemma MentionsOfFive(a: seq<Issue>, b: seq<Issue>, c: seq<Issue>, d: seq<Issue>, e: seq<Issue>, f: Field)
    ensures Mentions(a + b + c + d + e, f) <==>
            Mentions(a, f) || Mentions(b, f) || Mentions(c, f) || Mentions(d, f) || Mentions(e, f)
  {
    MentionsAppend(a, b, f);
    MentionsAppend(a + b, c, f);
    MentionsAppend(a + b + c, d, f);
    MentionsAppend(a + b + c + d, e, f);
  }

  /**
   * The issues `appLinkSchema.safeParse` reports, in key order; `pageId` accepts any
   * string, so it never appears.
   */
  function AppLinkIssues(p: AppLinkInput): (issues: seq<Issue>)
    ensures issues == [] <==> ConformsToAppLinkSchema(p)
    ensures !Mentions(issues, PageId)
    ensures Mentions(issues, Campaign) <==> p.campaign.None? || !MatchesUtmPattern(p.campaign.value)
    ensures Mentions(issues, Feature) <==> p.feature.Some? && !MatchesUtmPattern(p.feature.value)
  {
    var base := EnumIssue(BaseUrl, p.baseUrl, true, AppBaseUrls);
    var campaign := PatternIssue(Campaign, p.campaign, true, MatchesUtmPattern);
    var feature := PatternIssue(Feature, p.feature, false, MatchesUtmPattern);
    var pageType := EnumIssue(PageType, p.pageType, false, PageTypes);
    var inner := EnumIssue(InitialInnerPage, p.initialInnerPage, false, InnerPageTypes);
    var issues := base + campaign + feature + pageType + inner;
    MentionsOfFive(base, campaign, feature, pageType, inner, PageId);
    MentionsOfFive(base, campaign, feature, pageType, inner, Campaign);
    MentionsOfFive(base, campaign, feature, pageType, inner, Feature);
    issues
  }

  /** An object presented to `webinarLinkSchema`. */
  datatype WebinarLinkInput = WebinarLinkInput(postfix: Option<string>)

  /** The issues `webinarLinkSchema.safeParse` reports. */
  function WebinarLinkIssues(p: WebinarLinkInput): (issues: seq<Issue>)
    ensures issues == [] <==> p.postfix.Some? && MatchesPostfixPattern(p.postfix.value)
    ensures |issues| <= 1
  {
    PatternIssue(Postfix, p.postfix, true, MatchesPostfixPattern)
  }
}
