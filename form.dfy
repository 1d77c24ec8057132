/**
 * The form state of the link wizard and the pure operations on it: selecting a link
 * type or a destination, the idea-name rewrite, the tag validator with its two
 * strategies, the source toggle and the per-step "can proceed" test.
 */
module Form {
  import opened Wrappers
  import opened Text
  import Schema

  datatype LinkType = App | WebinarBot | PartnerBot

  /** The wizard step counter. */
  type Step = s: int | 1 <= s <= 4 witness 1

  /**
   * `FormData`. The optional fields `destinationId`, `subPage` and `ideaName` are `None`
   * where the form object has no such key.
   */
  datatype FormData = FormData(
    linkType: Option<LinkType>,
    destination: Option<string>,
    destinationId: Option<string>,
    subPage: Option<string>,
    ideaName: Option<string>,
    utmCampaign: string,
    selectedSources: seq<string>)

  /** The state the wizard starts in and returns to on "start over". */
  const InitialForm := FormData(None, None, None, None, None, "", [])

  /** JavaScript truthiness of a `string | undefined`: defined and non-empty. */
  predicate Present(o: Option<string>) {
    o.Some? && o.value != ""
  }

  /** An entry of a destination table (`label` is a Dafny keyword, hence `labelText`), with the flags that ask for extra input. */
  datatype Destination = Destination(id: string, labelText: string, needsId: bool, needsIdeaName: bool, hasSubPages: bool)

  predicate NeedsExtraInfo(d: Destination) {
    d.needsId || d.needsIdeaName || d.hasSubPages
  }

  /** The update `handleLinkTypeSelect` makes. */
  function SelectLinkType(f: FormData, lt: LinkType): (r: FormData)
    ensures r.linkType == Some(lt) && r.destination == None
    ensures !Present(r.destinationId) && !Present(r.subPage) && !Present(r.ideaName)
    ensures r.utmCampaign == f.utmCampaign && r.selectedSources == f.selectedSources
  {
    f.(linkType := Some(lt), destination := None, destinationId := Some(""), subPage := Some(""), ideaName := Some(""))
  }

  /** The update `handleDestinationSelect` makes, and the one a destination with extra fields makes on click. */
  function SelectDestination(f: FormData, d: string): (r: FormData)
    ensures r.destination == Some(d) && r.linkType == f.linkType
    ensures !Present(r.destinationId) && !Present(r.subPage) && !Present(r.ideaName)
    ensures r.utmCampaign == f.utmCampaign && r.selectedSources == f.selectedSources
  {
    f.(destination := Some(d), destinationId := Some(""), subPage := Some(""), ideaName := Some(""))
  }

  /** The idea-name input stores the typed text with every whitespace run replaced by `-`. */
  function IdeaNameInput(raw: string): (name: string)
    ensures NoSpace(name)
    ensures NoSpace(raw) ==> name == raw
  {
    if NoSpace(raw) then ReplaceSpaceRunsIdentity(raw, '-'); ReplaceSpaceRuns(raw, '-')
    else ReplaceSpaceRuns(raw, '-')
  }

  /** Typing `Scale AI` stores `Scale-AI`. */
  lemma IdeaNameExample()
    ensures IdeaNameInput("Scale AI") == "Scale-AI"
  {
    assert "Scale AI" == "Scale" + " " + "AI";
    ReplaceSpaceRunsBetweenWords("Scale", " ", "AI", '-');
    ReplaceSpaceRunsIdentity("AI", '-');
    assert "Scale" + ['-'] + "AI" == "Scale-AI";
  }

  /** The fixed tag list of the webinar bot. */
  const WebinarTags: seq<string> := ["tgmain", "tgpartners", "email", "wa", "ytmain", "igmain", "website"]

  /** `validateUtmCampaign`: the tag list for the webinar bot, the UTM character class otherwise. */
  function ValidateUtmCampaign(lt: Option<LinkType>, value: string): (ok: bool)
    ensures ok ==> value != ""
  {
    if lt == Some(WebinarBot) then value in WebinarTags else Schema.MatchesUtmPattern(value)
  }

  /** The seven webinar tags are lower-case words, so each is also a valid UTM value. */
  lemma WebinarTagsAreUtmValues()
    ensures forall i :: 0 <= i < |WebinarTags| ==> Schema.MatchesUtmPattern(WebinarTags[i])
  {
    forall i | 0 <= i < |WebinarTags| ensures Schema.MatchesUtmPattern(WebinarTags[i]) {
      assert forall k :: 0 <= k < |WebinarTags[i]| ==> 'a' <= WebinarTags[i][k] <= 'z';
      Schema.UtmPatternChars(WebinarTags[i]);
    }
  }

  /** Both strategies: one of the 7 tags for the webinar bot, a non-empty `[A-Za-z0-9_-]` string otherwise. */
  lemma TagValidationStrategies(lt: Option<LinkType>, value: string)
    ensures lt == Some(WebinarBot) ==> (ValidateUtmCampaign(lt, value) <==> value in WebinarTags)
    ensures lt != Some(WebinarBot) ==>
      (ValidateUtmCampaign(lt, value) <==> |value| > 0 && forall i :: 0 <= i < |value| ==> Schema.IsUtmChar(value[i]))
  {
    Schema.UtmPatternChars(value);
  }

  /** Every tag either strategy accepts is a valid UTM value. */
  lemma ValidTagIsUtmValue(lt: Option<LinkType>, value: string)
    requires ValidateUtmCampaign(lt, value)
    ensures Schema.MatchesUtmPattern(value)
  {
    if lt == Some(WebinarBot) {
      WebinarTagsAreUtmValues();
      var i :| 0 <= i < |WebinarTags| && WebinarTags[i] == value;
    }
  }

  datatype ValidationError = TagRequired | NotAWebinarTag | InvalidTagCharacters

  /** The text shown under the tag input for each error. */
  function ValidationMessage(e: ValidationError): string {
    match e
    case TagRequired => "UTM метка обязательна"
    case NotAWebinarTag => "Для бота вебинаров используйте одну из меток: tgmain, tgpartners, email, wa, ytmain, igmain, website"
    case InvalidTagCharacters => "UTM метка может содержать только латинские буквы, цифры, дефис и подчёркивание"
  }

  /** `getValidationError`: the blank check comes first, then the strategy of the link type. */
  function GetValidationError(f: FormData): (r: Option<ValidationError>)
    ensures r == Some(TagRequired) <==> IsBlank(f.utmCampaign)
    ensures r == None <==> !IsBlank(f.utmCampaign) && ValidateUtmCampaign(f.linkType, f.utmCampaign)
    ensures r == Some(NotAWebinarTag) <==>
      !IsBlank(f.utmCampaign) && f.linkType == Some(WebinarBot) && f.utmCampaign !in WebinarTags
  {
    TrimEmptyIffBlank(f.utmCampaign);
    if Trim(f.utmCampaign) == "" then Some(TagRequired)
    else if !ValidateUtmCampaign(f.linkType, f.utmCampaign) then
      if f.linkType == Some(WebinarBot) then Some(NotAWebinarTag) else Some(InvalidTagCharacters)
    else None
  }

  /** `canProceedFromStep`. */
  function CanProceedFromStep(f: FormData, step: Step): (ok: bool)
    ensures step == 3 ==> (ok <==> !IsBlank(f.utmCampaign) && |f.selectedSources| > 0)
  {
    TrimEmptyIffBlank(f.utmCampaign);
    match step
    case 1 => f.linkType != None
    case 2 => f.destination != None
    case 3 => Trim(f.utmCampaign) != "" && |f.selectedSources| > 0
    case 4 => true
  }

  /** The "generate" button of step 3 is shown only when a source is selected and the tag has no error. */
  predicate GenerateEnabled(f: FormData) {
    |f.selectedSources| > 0 && GetValidationError(f) == None
  }

  /** When generation is offered, step 3 may be left and the tag is a non-empty UTM value. */
  lemma GenerateEnabledMeansReady(f: FormData)
    requires GenerateEnabled(f)
    ensures CanProceedFromStep(f, 3)
    ensures f.utmCampaign != "" && Schema.MatchesUtmPattern(f.utmCampaign)
  {
    ValidTagIsUtmValue(f.linkType, f.utmCampaign);
  }

  /** `selectedSources.filter(s => s !== v)`. */
  function Without(xs: seq<string>, v: string): (r: seq<string>)
    ensures forall x :: x in r <==> x in xs && x != v
    ensures v !in xs ==> r == xs
    ensures |r| <= |xs|
  {
    if xs == [] then []
    else if xs[0] == v then Without(xs[1..], v)
    else [xs[0]] + Without(xs[1..], v)
  }

  /** `toggleSource`: a selected source is removed, an unselected one is appended at the end. */
  function ToggleSource(xs: seq<string>, v: string): (r: seq<string>)
    ensures forall x :: x in r <==> if x == v then v !in xs else x in xs
    ensures v !in xs ==> r == xs + [v]
  {
    if v in xs then Without(xs, v) else xs + [v]
  }

  lemma {:induction false} WithoutAppended(xs: seq<string>, v: string)
    requires v !in xs
    ensures Without(xs + [v], v) == xs
  {
    if xs == [] {
      assert [] + [v] == [v];
    } else {
      assert (xs + [v])[0] == xs[0];
      assert (xs + [v])[1..] == xs[1..] + [v];
      WithoutAppended(xs[1..], v);
      assert [xs[0]] + xs[1..] == xs;
    }
  }

  /**
   * `filter` works piece by piece: the values of `a` that stay come first, in their
   * order, then those of `b`.
   */
  lemma {:induction false} WithoutConcat(a: seq<string>, b: seq<string>, v: string)
    ensures Without(a + b, v) == Without(a, v) + Without(b, v)
    decreases |a|
  {
    if a == [] {
      assert a + b == b;
    } else {
      assert (a + b)[0] == a[0];
      assert (a + b)[1..] == a[1..] + b;
      WithoutConcat(a[1..], b, v);
      if a[0] != v {
        assert [a[0]] + (Without(a[1..], v) + Without(b, v)) == [a[0]] + Without(a[1..], v) + Without(b, v);
      }
    }
  }

  /**
   * In a selection without duplicates, removing the value at position `k` leaves the
   * values before it and the values after it, in their order.
   */
  lemma WithoutDistinct(xs: seq<string>, k: int, v: string)
    requires Schema.Distinct(xs) && 0 <= k < |xs| && xs[k] == v
    ensures Without(xs, v) == xs[..k] + xs[k + 1..]
  {
    var before, after := xs[..k], xs[k + 1..];
    assert xs == before + [v] + after;
    assert v !in before by {
      forall i | 0 <= i < |before| ensures before[i] != v {
        assert before[i] == xs[i];
      }
    }
    assert v !in after by {
      forall i | 0 <= i < |after| ensures after[i] != v {
        assert after[i] == xs[k + 1 + i];
      }
    }
    WithoutConcat(before + [v], after, v);
    WithoutConcat(before, [v], v);
    assert Without([v], v) == [];
    assert Without(before + [v], v) == before;
  }

  /** Toggling a selected source removes exactly that entry and keeps the order of the rest. */
  lemma ToggleRemoves(xs: seq<string>, k: int, v: string)
    requires Schema.Distinct(xs) && 0 <= k < |xs| && xs[k] == v
    ensures ToggleSource(xs, v) == xs[..k] + xs[k + 1..]
  {
    WithoutDistinct(xs, k, v);
  }

  /** Toggling an unselected source twice restores the selection. */
  lemma ToggleTwiceRestores(xs: seq<string>, v: string)
    requires v !in xs
    ensures ToggleSource(ToggleSource(xs, v), v) == xs
  {
    WithoutAppended(xs, v);
  }

  lemma {:induction false} WithoutKeepsDistinct(xs: seq<string>, v: string)
    requires Schema.Distinct(xs)
    ensures Schema.Distinct(Without(xs, v))
  {
    if xs != [] {
      assert Schema.Distinct(xs[1..]) by {
        forall i, j | 0 <= i < j < |xs[1..]| ensures xs[1..][i] != xs[1..][j] {
          assert xs[1..][i] == xs[i + 1] && xs[1..][j] == xs[j + 1];
        }
      }
      WithoutKeepsDistinct(xs[1..], v);
      if xs[0] != v {
        var rest := Without(xs[1..], v);
        assert xs[0] !in xs[1..] by {
          forall k | 0 <= k < |xs[1..]| ensures xs[1..][k] != xs[0] {
            assert xs[1..][k] == xs[k + 1];
          }
        }
        assert xs[0] !in rest;
        forall i, j | 0 <= i < j < |[xs[0]] + rest| ensures ([xs[0]] + rest)[i] != ([xs[0]] + rest)[j] {
          if i == 0 {
            assert ([xs[0]] + rest)[j] == rest[j - 1];
          } else {
            assert ([xs[0]] + rest)[i] == rest[i - 1] && ([xs[0]] + rest)[j] == rest[j - 1];
          }
        }
      }
    }
  }

  /** A duplicate-free selection stays duplicate-free under toggling. */
  lemma ToggleKeepsDistinct(xs: seq<string>, v: string)
    requires Schema.Distinct(xs)
    ensures Schema.Distinct(ToggleSource(xs, v))
  {
    if v in xs {
      WithoutKeepsDistinct(xs, v);
    } else {
      var r := xs + [v];
      forall i, j | 0 <= i < j < |r| ensures r[i] != r[j] {
        if j == |xs| {
          assert r[i] == xs[i];
        }
      }
    }
  }
}
