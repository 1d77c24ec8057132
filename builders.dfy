/**
 * The three link builders of the wizard. Each reads the form and one source value
 * and concatenates a URL; nothing is percent-encoded.
 */
module Builders {
  import opened Wrappers
  import opened Text
  import opened Query
  import opened Form
  import Schema

  const AppLinkBase := "https://axevil.app.link/web"
  const WebinarBotBase := "https://t.me/axevil_events_bot"
  const PartnerBotBase := "https://t.me/axevil_partner_bot"

  /** The destination the builders switch on; `null` matches no case, exactly like the empty string. */
  function DestinationOf(f: FormData): string {
    f.destination.GetOr("")
  }

  // ----- application deep link -----

  /** The destinations the application-link builder names. */
  const AppDestinations: seq<string> := [
    "home", "portfolio", "idea_detail", "investment_detail", "news_list", "news_detail", "ai_chat", "profile", "referral"
  ]

  /** The `page_type` each destination is sent with. */
  function PageTypeOf(d: string): Option<string> {
    if d == "portfolio" then Some("portfolio")
    else if d == "idea_detail" then Some("idea")
    else if d == "investment_detail" then Some("order")
    else if d == "news_list" || d == "news_detail" then Some("news")
    else if d == "ai_chat" then Some("assistant")
    else if d == "profile" then Some("profile")
    else if d == "referral" then Some("referral")
    else None
  }

  /** Destinations that carry the entered identifier as `page_id`. */
  predicate EmitsPageId(d: string) {
    d == "idea_detail" || d == "investment_detail" || d == "news_detail"
  }

  /** Destinations that carry the chosen tab as `initial_inner_page`. */
  predicate EmitsInnerPage(d: string) {
    d == "portfolio" || d == "investment_detail"
  }

  function OptionalParam(key: string, v: Option<string>): seq<Param> {
    match v
    case Some(x) => [Param(key, x)]
    case None => []
  }

  /** The application-link parameters in their fixed order; absent optional ones are left out. */
  function AppParams(campaign: string, feature: string, pageType: Option<string>,
                     pageId: Option<string>, innerPage: Option<string>): seq<Param> {
    [Param("~campaign", campaign), Param("~feature", feature)]
    + OptionalParam("page_type", pageType)
    + OptionalParam("page_id", pageId)
    + OptionalParam("initial_inner_page", innerPage)
  }

  /** The entered identifier, when the destination takes one and it is non-empty. */
  function PageIdOf(f: FormData): Option<string> {
    if EmitsPageId(DestinationOf(f)) && Present(f.destinationId) then f.destinationId else None
  }

  /** The chosen tab, when the destination has tabs and one was chosen. */
  function InnerPageOf(f: FormData): Option<string> {
    if EmitsInnerPage(DestinationOf(f)) && Present(f.subPage) then f.subPage else None
  }

  /** The parameter list of the application link, one rule per parameter. */
  function AppQuery(f: FormData, source: string): seq<Param> {
    AppParams(f.utmCampaign, source, PageTypeOf(DestinationOf(f)), PageIdOf(f), InnerPageOf(f))
  }

  function AppLinkUrl(f: FormData, source: string): string {
    WithQuery(AppLinkBase, AppQuery(f, source))
  }

  /**
   * `generateAppLink`: the parameters are pushed case by case, then rendered as
   * `key=value` and joined with `&`. Each pushed template string is kept here as
   * its key/value pair; `Render` writes it back out at the join.
   */
  method GenerateAppLink(f: FormData, source: string) returns (url: string)
    ensures url == AppLinkUrl(f, source)
  {
    var baseUrl := AppLinkBase;
    var params := [Param("~campaign", f.utmCampaign)];
    params := params + [Param("~feature", source)];
    params := PushDestinationParams(f, params);
    assert params == AppQuery(f, source);
    url := baseUrl + "?" + Join(RenderAll(params), '&');
  }

  /** The `switch` of `generateAppLink`: what each destination pushes after `~campaign` and `~feature`. */
  method PushDestinationParams(f: FormData, params0: seq<Param>) returns (params: seq<Param>)
    ensures params == params0 + OptionalParam("page_type", PageTypeOf(DestinationOf(f)))
                              + OptionalParam("page_id", PageIdOf(f))
                              + OptionalParam("initial_inner_page", InnerPageOf(f))
  {
    params := params0;
    match f.destination {
      case Some("home") =>
      case Some("portfolio") =>
        params := params + [Param("page_type", "portfolio")];
        if Present(f.subPage) {
          params := params + [Param("initial_inner_page", f.subPage.value)];
        }
      case Some("idea_detail") =>
        params := params + [Param("page_type", "idea")];
        if Present(f.destinationId) {
          params := params + [Param("page_id", f.destinationId.value)];
        }
      case Some("investment_detail") =>
        params := params + [Param("page_type", "order")];
        if Present(f.destinationId) {
          params := params + [Param("page_id", f.destinationId.value)];
        }
        if Present(f.subPage) {
          params := params + [Param("initial_inner_page", f.subPage.value)];
        }
      case Some("news_list") =>
        params := params + [Param("page_type", "news")];
      case Some("news_detail") =>
        params := params + [Param("page_type", "news")];
        if Present(f.destinationId) {
          params := params + [Param("page_id", f.destinationId.value)];
        }
      case Some("ai_chat") =>
        params := params + [Param("page_type", "assistant")];
      case Some("profile") =>
        params := params + [Param("page_type", "profile")];
      case Some("referral") =>
        params := params + [Param("page_type", "referral")];
      case _ =>
    }
  }

  /** The application link starts with the fixed base, then `~campaign` and `~feature`, in that order. */
  lemma AppLinkPrefix(f: FormData, source: string)
    ensures var url := AppLinkUrl(f, source);
            var head := AppLinkBase + "?" + Render(Param("~campaign", f.utmCampaign)) + "&" + Render(Param("~feature", source));
            |url| >= |head| && url[..|head|] == head && (|url| == |head| || url[|head|] == '&')
  {
    var q := AppQuery(f, source);
    assert q == [q[0], q[1]] + q[2..];
    WithQueryFirstTwo(AppLinkBase, q[0], q[1], q[2..]);
  }

  /** The order of the application-link parameters. */
  function KeyRank(key: string): nat {
    if key == "~campaign" then 0
    else if key == "~feature" then 1
    else if key == "page_type" then 2
    else if key == "page_id" then 3
    else if key == "initial_inner_page" then 4
    else 5
  }

  /**
   * Only the five known keys occur, each at most once, always in the order
   * `~campaign`, `~feature`, `page_type`, `page_id`, `initial_inner_page`.
   */
  lemma AppParamsKeyOrder(c: string, s: string, t: Option<string>, i: Option<string>, n: Option<string>)
    ensures var q := AppParams(c, s, t, i, n);
            |q| >= 2 && q[0].key == "~campaign" && q[1].key == "~feature" &&
            (forall k :: 0 <= k < |q| ==> KeyRank(q[k].key) < 5) &&
            (forall k, l :: 0 <= k < l < |q| ==> KeyRank(q[k].key) < KeyRank(q[l].key))
  {
  }

  /** Each optional parameter reads back as the value it was given, or is absent. */
  lemma AppParamsLookup(c: string, s: string, t: Option<string>, i: Option<string>, n: Option<string>)
    ensures var q := AppParams(c, s, t, i, n);
            && Lookup(q, "~campaign") == Some(c)
            && Lookup(q, "~feature") == Some(s)
            && Lookup(q, "page_type") == t
            && Lookup(q, "page_id") == i
            && Lookup(q, "initial_inner_page") == n
  {
    AppKeysDistinct();
    LookupInAppParams(c, s, t, i, n, "~campaign");
    LookupInAppParams(c, s, t, i, n, "~feature");
    LookupInAppParams(c, s, t, i, n, "page_type");
    LookupInAppParams(c, s, t, i, n, "page_id");
    LookupInAppParams(c, s, t, i, n, "initial_inner_page");
  }

  /** The five keys are pairwise different. */
  lemma AppKeysDistinct()
    ensures "~campaign" != "~feature"
    ensures "page_type"[0] != '~' && "page_id"[0] != '~' && "initial_inner_page"[0] != '~'
    ensures "page_type" != "page_id" && "page_type" != "initial_inner_page" && "page_id" != "initial_inner_page"
  {
    assert "page_type"[5] != "page_id"[5];
  }

  /** Looking a key up in the application parameters: the two fixed keys first, then the optional ones in order. */
  lemma LookupInAppParams(c: string, s: string, t: Option<string>, i: Option<string>, n: Option<string>, k: string)
    ensures Lookup(AppParams(c, s, t, i, n), k) ==
      if k == "~campaign" then Some(c)
      else if k == "~feature" then Some(s)
      else if Lookup(OptionalParam("page_type", t), k).Some? then Lookup(OptionalParam("page_type", t), k)
      else if Lookup(OptionalParam("page_id", i), k).Some? then Lookup(OptionalParam("page_id", i), k)
      else Lookup(OptionalParam("initial_inner_page", n), k)
  {
    var fixed := [Param("~campaign", c), Param("~feature", s)];
    var pt, pi, pn := OptionalParam("page_type", t), OptionalParam("page_id", i), OptionalParam("initial_inner_page", n);
    LookupAppend(fixed + pt + pi, pn, k);
    LookupAppend(fixed + pt, pi, k);
    LookupAppend(fixed, pt, k);
    assert fixed[1..] == [Param("~feature", s)] && fixed[1..][1..] == [];
    assert Lookup(fixed, k) == if fixed[0].key == k then Some(c) else Lookup(fixed[1..], k);
    assert Lookup(fixed[1..], k) == if fixed[1..][0].key == k then Some(s) else Lookup(fixed[1..][1..], k);
  }

  lemma LookupOptional(key: string, v: Option<string>, k: string)
    ensures Lookup(OptionalParam(key, v), k) == if key == k then v else None
  {
    if v.Some? {
      assert OptionalParam(key, v)[1..] == [];
    }
  }

  /** The key order of the application link, for every form and source. */
  lemma AppQueryKeyOrder(f: FormData, source: string)
    ensures var q := AppQuery(f, source);
            |q| >= 2 && q[0].key == "~campaign" && q[1].key == "~feature" &&
            (forall k :: 0 <= k < |q| ==> KeyRank(q[k].key) < 5) &&
            (forall k, l :: 0 <= k < l < |q| ==> KeyRank(q[k].key) < KeyRank(q[l].key))
  {
    AppParamsKeyOrder(f.utmCampaign, source, PageTypeOf(DestinationOf(f)), PageIdOf(f), InnerPageOf(f));
  }

  /**
   * What each parameter of the application link reads back as: `page_type` iff the
   * destination has one, `page_id` iff the destination takes one and an id was entered,
   * `initial_inner_page` iff the destination has tabs and one was chosen.
   */
  lemma AppQueryLookup(f: FormData, source: string)
    ensures var q := AppQuery(f, source);
            var d := DestinationOf(f);
            && Lookup(q, "~campaign") == Some(f.utmCampaign)
            && Lookup(q, "~feature") == Some(source)
            && Lookup(q, "page_type") == PageTypeOf(d)
            && Lookup(q, "page_id") == (if EmitsPageId(d) && Present(f.destinationId) then f.destinationId else None)
            && Lookup(q, "initial_inner_page") == (if EmitsInnerPage(d) && Present(f.subPage) then f.subPage else None)
  {
    AppParamsLookup(f.utmCampaign, source, PageTypeOf(DestinationOf(f)), PageIdOf(f), InnerPageOf(f));
  }

  /** Exactly the named destinations other than `home` carry a `page_type`. */
  lemma PageTypeTable(d: string)
    ensures PageTypeOf(d).Some? <==> d in AppDestinations && d != "home"
  {
  }

  /** An unknown destination (or `home`) gets only `~campaign` and `~feature`. */
  lemma OtherDestinationsBare(f: FormData, source: string)
    requires DestinationOf(f) !in AppDestinations[1..]
    ensures AppQuery(f, source) == [Param("~campaign", f.utmCampaign), Param("~feature", source)]
  {
  }

  /** Every `page_type` the builder emits is one of the schema's page types. */
  lemma PageTypesCoverEmitted(d: string)
    requires PageTypeOf(d).Some?
    ensures PageTypeOf(d).value in Schema.PageTypes
  {
  }

  /**
   * Read back by the downstream consumer, the link yields exactly its parameter list,
   * provided no value contains `&` (the builder does not encode).
   */
  lemma AppLinkReadsBack(f: FormData, source: string)
    requires '&' !in f.utmCampaign && '&' !in source
    requires f.destinationId.Some? ==> '&' !in f.destinationId.value
    requires f.subPage.Some? ==> '&' !in f.subPage.value
    ensures var url := AppLinkUrl(f, source);
            var n := |AppLinkBase| + 1;
            |url| >= n && url[..n] == AppLinkBase + "?" && ParseQuery(url[n..]) == AppQuery(f, source)
  {
    AppParamsTransparent(f.utmCampaign, source, PageTypeOf(DestinationOf(f)), PageIdOf(f), InnerPageOf(f));
    ParseRenderQuery(AppQuery(f, source));
    QueryPart(AppLinkBase, AppQuery(f, source));
  }

  /** With `&`-free values, the application-link parameters survive the query syntax. */
  lemma AppParamsTransparent(c: string, s: string, t: Option<string>, i: Option<string>, n: Option<string>)
    requires '&' !in c && '&' !in s
    requires t.Some? ==> '&' !in t.value
    requires i.Some? ==> '&' !in i.value
    requires n.Some? ==> '&' !in n.value
    ensures Transparent(AppParams(c, s, t, i, n))
  {
    AppKeysPlain();
    var fixed := [Param("~campaign", c), Param("~feature", s)];
    var pt, pi, pn := OptionalParam("page_type", t), OptionalParam("page_id", i), OptionalParam("initial_inner_page", n);
    OptionalTransparent("page_type", t);
    OptionalTransparent("page_id", i);
    OptionalTransparent("initial_inner_page", n);
    TransparentAppend(fixed, pt);
    TransparentAppend(fixed + pt, pi);
    TransparentAppend(fixed + pt + pi, pn);
  }

  /** None of the five keys contains `=` or `&`. */
  lemma AppKeysPlain()
    ensures '=' !in "~campaign" && '&' !in "~campaign" && '=' !in "~feature" && '&' !in "~feature"
    ensures '=' !in "page_type" && '&' !in "page_type" && '=' !in "page_id" && '&' !in "page_id"
    ensures '=' !in "initial_inner_page" && '&' !in "initial_inner_page"
  {
  }

  lemma OptionalTransparent(key: string, v: Option<string>)
    requires '=' !in key && '&' !in key
    requires v.Some? ==> '&' !in v.value
    ensures Transparent(OptionalParam(key, v))
  {
  }

  /** The parameters of a generated link, presented to `appLinkSchema`. */
  function AppLinkInputOf(f: FormData, source: string): Schema.AppLinkInput {
    var q := AppQuery(f, source);
    Schema.AppLinkInput(Some(AppLinkBase), Lookup(q, "~campaign"), Lookup(q, "~feature"),
                        Lookup(q, "page_type"), Lookup(q, "page_id"), Lookup(q, "initial_inner_page"))
  }

  /**
   * A generated application link satisfies `appLinkSchema` exactly when its tag and
   * source are UTM values and any chosen tab is one of the schema's inner pages.
   */
  lemma GeneratedAppLinkConforms(f: FormData, source: string)
    ensures Schema.ConformsToAppLinkSchema(AppLinkInputOf(f, source)) <==>
      && Schema.MatchesUtmPattern(f.utmCampaign)
      && Schema.MatchesUtmPattern(source)
      && (EmitsInnerPage(DestinationOf(f)) && Present(f.subPage) ==> f.subPage.value in Schema.InnerPageTypes)
  {
    AppQueryLookup(f, source);
    assert Schema.AppBaseUrls[10] == AppLinkBase;
    assert AppLinkInputOf(f, source) == Schema.AppLinkInput(Some(AppLinkBase), Some(f.utmCampaign), Some(source),
      PageTypeOf(DestinationOf(f)), PageIdOf(f), InnerPageOf(f));
    var d := DestinationOf(f);
    if PageTypeOf(d).Some? {
      PageTypesCoverEmitted(d);
    }
  }

  /** An idea page with identifier `42`, tag `post_100823` and source `tgmain`. */
  lemma IdeaDetailLinkExample()
    ensures AppLinkUrl(FormData(Some(App), Some("idea_detail"), Some("42"), None, None, "post_100823", []), "tgmain")
            == WithQuery(AppLinkBase, [Param("~campaign", "post_100823"), Param("~feature", "tgmain"),
                                       Param("page_type", "idea"), Param("page_id", "42")])
  {
  }

  // ----- chat-bot links -----

  /** The `start=` scenario prefix of each webinar-bot destination. */
  function WebinarScenarioPrefix(d: string): Option<string> {
    if d == "invite" then Some("web_")
    else if d == "application" then Some("commit_")
    else None
  }

  /** The template `${baseUrl}?start=<prefix>...` of both bots. */
  function StartLink(base: string, prefix: string, payload: string): string {
    base + "?start=" + prefix + payload
  }

  /**
   * `generateWebinarBotLink`: the bot address, with a `start=` payload exactly for the
   * webinar scenarios (`WebinarBotLinkShape` gives the payload).
   */
  function WebinarBotLink(f: FormData, source: string): (url: string)
    ensures |url| >= |WebinarBotBase| && url[..|WebinarBotBase|] == WebinarBotBase
    ensures url == WebinarBotBase <==> WebinarScenarioPrefix(DestinationOf(f)).None?
  {
    match f.destination
    case Some("invite") => StartLink(WebinarBotBase, "web_", source + "_" + f.utmCampaign)
    case Some("application") => StartLink(WebinarBotBase, "commit_", source + "_" + f.utmCampaign)
    case _ => WebinarBotBase
  }

  /** The webinar link is the bot address, then `?start=<prefix><source>_<tag>`, or the bare address. */
  lemma WebinarBotLinkShape(f: FormData, source: string)
    ensures WebinarBotLink(f, source) ==
      match WebinarScenarioPrefix(DestinationOf(f))
      case Some(p) => WebinarBotBase + "?start=" + p + source + "_" + f.utmCampaign
      case None => WebinarBotBase
  {
  }

  /** The webinar link has a query part exactly when the destination is a webinar scenario. */
  lemma WebinarBotLinkHasQuery(f: FormData, source: string)
    ensures '?' in WebinarBotLink(f, source) <==> WebinarScenarioPrefix(DestinationOf(f)).Some?
  {
    var d := DestinationOf(f);
    var url := WebinarBotLink(f, source);
    WebinarBotLinkShape(f, source);
    if WebinarScenarioPrefix(d).Some? {
      assert url[|WebinarBotBase|] == '?';
    } else {
      assert '?' !in WebinarBotBase;
    }
  }

  /** The `start=` scenario prefix of each partner-bot destination. */
  function PartnerScenarioPrefix(d: string): Option<string> {
    if d == "home" || d == "report" || d == "knowledge" then Some("partnerinfo_")
    else if d == "webinars" then Some("getinvite_")
    else if d == "ideas_list" || IsIdeaScenario(d) then Some("getpitch_")
    else if d == "registration" then Some("newpartner_")
    else if d == "application" then Some("commit_")
    else None
  }

  /** The partner-bot destinations about one idea, which may carry its name. */
  predicate IsIdeaScenario(d: string) {
    d == "idea_pitch" || d == "idea_materials" || d == "idea_booking"
  }

  /**
   * `generatePartnerBotLink`, the three idea cases sharing one branch: the bot address,
   * with a `start=` payload exactly for the partner scenarios (`PartnerBotLinkShape`
   * gives the payload).
   */
  function PartnerBotLink(f: FormData, source: string): (url: string)
    ensures |url| >= |PartnerBotBase| && url[..|PartnerBotBase|] == PartnerBotBase
    ensures url == PartnerBotBase <==> PartnerScenarioPrefix(DestinationOf(f)).None?
  {
    var payload := source + "_" + f.utmCampaign;
    match f.destination
    case Some("home") => StartLink(PartnerBotBase, "partnerinfo_", payload)
    case Some("webinars") => StartLink(PartnerBotBase, "getinvite_", payload)
    case Some("report") => StartLink(PartnerBotBase, "partnerinfo_", payload)
    case Some("ideas_list") => StartLink(PartnerBotBase, "getpitch_", payload)
    case Some("idea_pitch") | Some("idea_materials") | Some("idea_booking") =>
      var ideaParam := if Present(f.ideaName) then "_" + f.ideaName.value else "";
      StartLink(PartnerBotBase, "getpitch_", payload + ideaParam)
    case Some("knowledge") => StartLink(PartnerBotBase, "partnerinfo_", payload)
    case Some("registration") => StartLink(PartnerBotBase, "newpartner_", payload)
    case Some("application") => StartLink(PartnerBotBase, "commit_", payload)
    case _ => PartnerBotBase
  }

  /** The `_<idea name>` suffix: only for the idea scenarios, and only when a name was entered. */
  function IdeaSuffix(f: FormData): string {
    if IsIdeaScenario(DestinationOf(f)) && Present(f.ideaName) then "_" + f.ideaName.value else ""
  }

  /**
   * The partner link is the bot address, then `?start=<prefix><source>_<tag>` and the
   * idea suffix, or the bare address for an unknown destination.
   */
  lemma PartnerBotLinkShape(f: FormData, source: string)
    ensures PartnerBotLink(f, source) ==
      match PartnerScenarioPrefix(DestinationOf(f))
      case Some(p) => PartnerBotBase + "?start=" + p + source + "_" + f.utmCampaign + IdeaSuffix(f)
      case None => PartnerBotBase
  {
    match f.destination {
      case Some("home") =>
      case Some("webinars") =>
      case Some("report") =>
      case Some("ideas_list") =>
      case Some("idea_pitch") | Some("idea_materials") | Some("idea_booking") =>
      case Some("knowledge") =>
      case Some("registration") =>
      case Some("application") =>
      case _ =>
    }
  }

  /** The partner link has a query part exactly when the destination is a partner scenario. */
  lemma PartnerBotLinkHasQuery(f: FormData, source: string)
    ensures '?' in PartnerBotLink(f, source) <==> PartnerScenarioPrefix(DestinationOf(f)).Some?
  {
    PartnerBotLinkShape(f, source);
    WebinarBotLinkShape(f, source);
    var url := PartnerBotLink(f, source);
    if PartnerScenarioPrefix(DestinationOf(f)).Some? {
      assert url[|PartnerBotBase|] == '?';
    } else {
      assert '?' !in PartnerBotBase;
    }
  }

  /** A pitch request for the idea stored as `Scale-AI` (typed as `Scale AI`, see `IdeaNameExample`). */
  lemma IdeaPitchLinkExample()
    ensures PartnerBotLink(FormData(Some(PartnerBot), Some("idea_pitch"), Some(""), Some(""), Some("Scale-AI"), "post_100823", []), "tgmain")
            == StartLink(PartnerBotBase, "getpitch_", "tgmain" + "_" + "post_100823" + "_" + "Scale-AI")
  {
  }

  // ----- re-selecting a destination -----

  /**
   * Selecting a destination (again) leaves nothing for the extra parameters: no
   * `page_id`, no `initial_inner_page` in the application link and no idea suffix
   * in the partner link.
   */
  lemma SelectionClearsExtras(f: FormData, d: string, source: string)
    ensures var g := SelectDestination(f, d);
            && Lookup(AppQuery(g, source), "page_id") == None
            && Lookup(AppQuery(g, source), "initial_inner_page") == None
            && IdeaSuffix(g) == ""
  {
    AppQueryLookup(SelectDestination(f, d), source);
  }

  /**
   * The "Continue" button re-selects the destination: an idea page whose identifier
   * `42` was just entered loses its `page_id`.
   */
  lemma ContinueAsWrittenDropsPageId()
    ensures var f := FormData(Some(App), Some("idea_detail"), Some("42"), Some(""), Some(""), "post_100823", ["tgmain"]);
            && Lookup(AppQuery(f, "tgmain"), "page_id") == Some("42")
            && Lookup(AppQuery(SelectDestination(f, "idea_detail"), "tgmain"), "page_id") == None
  {
    var f := FormData(Some(App), Some("idea_detail"), Some("42"), Some(""), Some(""), "post_100823", ["tgmain"]);
    AppQueryLookup(f, "tgmain");
    SelectionClearsExtras(f, "idea_detail", "tgmain");
  }
}
