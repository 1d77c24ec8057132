/**
 * The page component's state — the step counter, the form and the generated links —
 * as a class whose handlers update it. The delayed step changes of the page happen
 * here at once.
 */
module Wizard {
  import opened Wrappers
  import opened Text
  import opened Form
  import opened Generate
  import Schema

  class Home {
    var currentStep: Step
    var formData: FormData
    var generatedLinks: seq<GeneratedLink>
    /** The table of source groups the page imports. */
    const sourceGroups: seq<SourceGroup>

    /**
     * What every handler keeps: the selection has no duplicates (it starts empty and
     * changes only by toggling) and a stored idea name holds no whitespace.
     */
    predicate Valid()
      reads this
    {
      Schema.Distinct(formData.selectedSources) &&
      (formData.ideaName.Some? ==> NoSpace(formData.ideaName.value))
    }

    constructor(groups: seq<SourceGroup>)
      ensures Valid()
      ensures currentStep == 1 && formData == InitialForm && generatedLinks == []
      ensures sourceGroups == groups
    {
      currentStep := 1;
      formData := InitialForm;
      generatedLinks := [];
      sourceGroups := groups;
    }

    /** `goToNextStep`: a step forward, none from the last step. */
    method GoToNextStep()
      modifies this
      ensures currentStep == if old(currentStep) < 4 then old(currentStep) + 1 else 4
      ensures formData == old(formData) && generatedLinks == old(generatedLinks)
    {
      if currentStep < 4 {
        currentStep := currentStep + 1;
      }
    }

    /** `goToPrevStep`: a step back, none from the first step. */
    method GoToPrevStep()
      modifies this
      ensures currentStep == if old(currentStep) > 1 then old(currentStep) - 1 else 1
      ensures formData == old(formData) && generatedLinks == old(generatedLinks)
    {
      if currentStep > 1 {
        currentStep := currentStep - 1;
      }
    }

    /** `handleLinkTypeSelect`: the type is set, the destination and its extra fields cleared. */
    method HandleLinkTypeSelect(lt: LinkType)
      requires Valid()
      modifies this
      ensures Valid()
      ensures formData == SelectLinkType(old(formData), lt)
      ensures currentStep == if old(currentStep) < 4 then old(currentStep) + 1 else 4
      ensures generatedLinks == old(generatedLinks)
    {
      formData := SelectLinkType(formData, lt);
      GoToNextStep();
    }

    /** `handleDestinationSelect`: the destination is set and its extra fields cleared. */
    method HandleDestinationSelect(d: string)
      requires Valid()
      modifies this
      ensures Valid()
      ensures formData == SelectDestination(old(formData), d)
      ensures currentStep == if old(currentStep) < 4 then old(currentStep) + 1 else 4
      ensures generatedLinks == old(generatedLinks)
    {
      formData := SelectDestination(formData, d);
      GoToNextStep();
    }

    /**
     * A click on a destination card: one that asks for extra input is only selected,
     * so that its fields can be filled in; any other is selected and the wizard moves on.
     */
    method ClickDestination(dest: Destination)
      requires Valid()
      modifies this
      ensures Valid()
      ensures formData == SelectDestination(old(formData), dest.id)
      ensures currentStep == if NeedsExtraInfo(dest) || old(currentStep) == 4 then old(currentStep) else old(currentStep) + 1
      ensures generatedLinks == old(generatedLinks)
    {
      if NeedsExtraInfo(dest) {
        formData := SelectDestination(formData, dest.id);
      } else {
        HandleDestinationSelect(dest.id);
      }
    }

    /** The identifier input. */
    method UpdateDestinationId(v: string)
      requires Valid()
      modifies this
      ensures Valid()
      ensures formData == old(formData).(destinationId := Some(v))
      ensures currentStep == old(currentStep) && generatedLinks == old(generatedLinks)
    {
      formData := formData.(destinationId := Some(v));
    }

    /** The idea-name input, which stores the text with its whitespace runs turned into `-`. */
    method UpdateIdeaName(raw: string)
      requires Valid()
      modifies this
      ensures Valid()
      ensures formData == old(formData).(ideaName := Some(IdeaNameInput(raw)))
      ensures currentStep == old(currentStep) && generatedLinks == old(generatedLinks)
    {
      formData := formData.(ideaName := Some(IdeaNameInput(raw)));
    }

    /** The tab selector. */
    method UpdateSubPage(v: string)
      requires Valid()
      modifies this
      ensures Valid()
      ensures formData == old(formData).(subPage := Some(v))
      ensures currentStep == old(currentStep) && generatedLinks == old(generatedLinks)
    {
      formData := formData.(subPage := Some(v));
    }

    /** The tag input, stored as typed. */
    method UpdateUtmCampaign(v: string)
      requires Valid()
      modifies this
      ensures Valid()
      ensures formData == old(formData).(utmCampaign := v)
      ensures currentStep == old(currentStep) && generatedLinks == old(generatedLinks)
    {
      formData := formData.(utmCampaign := v);
    }

    /** `toggleSource`, which keeps the selection duplicate-free. */
    method ToggleSelected(v: string)
      requires Valid()
      modifies this
      ensures Valid()
      ensures formData == old(formData).(selectedSources := ToggleSource(old(formData.selectedSources), v))
      ensures currentStep == old(currentStep) && generatedLinks == old(generatedLinks)
    {
      ToggleKeepsDistinct(formData.selectedSources, v);
      formData := formData.(selectedSources := ToggleSource(formData.selectedSources, v));
    }

    /**
     * `generateLinks`: nothing happens unless a type, a destination and a tag are set;
     * otherwise the links replace the previous ones and the wizard moves on.
     */
    method GenerateLinks()
      requires Valid()
      modifies this
      ensures Valid()
      ensures formData == old(formData)
      ensures var ready := formData.linkType.Some? && Present(formData.destination) && formData.utmCampaign != "";
              && (ready ==> generatedLinks == LinksFor(formData, sourceGroups, formData.selectedSources))
              && (ready ==> currentStep == if old(currentStep) < 4 then old(currentStep) + 1 else 4)
              && (!ready ==> generatedLinks == old(generatedLinks) && currentStep == old(currentStep))
    {
      if formData.linkType.None? || !Present(formData.destination) || formData.utmCampaign == "" {
        return;
      }
      var links := BuildLinks(formData, sourceGroups);
      generatedLinks := links;
      GoToNextStep();
    }

    /**
     * The "Continue" button under the extra fields, as written: it selects the current
     * destination again, which clears the identifier, tab and idea name just entered.
     */
    method ContinueAsWritten()
      requires Valid() && formData.destination.Some?
      modifies this
      ensures Valid()
      ensures formData == SelectDestination(old(formData), old(formData.destination.value))
      ensures currentStep == if old(currentStep) < 4 then old(currentStep) + 1 else 4
      ensures generatedLinks == old(generatedLinks)
    {
      HandleDestinationSelect(formData.destination.value);
    }

    /** The "Continue" button as intended: it moves on and keeps what was entered. */
    method Continue()
      requires Valid() && formData.destination.Some?
      modifies this
      ensures Valid()
      ensures formData == old(formData)
      ensures currentStep == if old(currentStep) < 4 then old(currentStep) + 1 else 4
      ensures generatedLinks == old(generatedLinks)
    {
      GoToNextStep();
    }

    /** "Create new links": back to the first step with an empty form and no links. */
    method StartOver()
      modifies this
      ensures Valid()
      ensures currentStep == 1 && formData == InitialForm && generatedLinks == []
    {
      currentStep := 1;
      formData := InitialForm;
      generatedLinks := [];
    }
  }

  /** The card of the idea page, which asks for an identifier. */
  const IdeaDetailCard := Destination("idea_detail", "Idea", true, false, false)

  /**
   * One pass through the wizard: application link, the idea page, identifier `42`,
   * "Continue", tag `post_100823`, source `tgmain`, "Generate". With the button as
   * written the identifier is gone by the time the link is built.
   */
  method IdeaDetailSessionAsWritten(groups: seq<SourceGroup>) returns (links: seq<GeneratedLink>)
    requires LookupSource(groups, "tgmain").Some?
    ensures |links| == 1
    ensures links[0].url == Builders.AppLinkUrl(FormData(Some(App), Some("idea_detail"), Some(""), Some(""), Some(""), "post_100823", ["tgmain"]), "tgmain")
  {
    var h := new Home(groups);
    h.HandleLinkTypeSelect(App);
    h.ClickDestination(IdeaDetailCard);
    h.UpdateDestinationId("42");
    h.ContinueAsWritten();
    assert h.formData == FormData(Some(App), Some("idea_detail"), Some(""), Some(""), Some(""), "", []);
    h.UpdateUtmCampaign("post_100823");
    h.ToggleSelected("tgmain");
    var f := FormData(Some(App), Some("idea_detail"), Some(""), Some(""), Some(""), "post_100823", ["tgmain"]);
    assert h.formData == f;
    h.GenerateLinks();
    assert ["tgmain"][..0] == [];
    links := h.generatedLinks;
  }

  /** The same pass with the corrected button: the identifier reaches the link. */
  method IdeaDetailSessionCorrected(groups: seq<SourceGroup>) returns (links: seq<GeneratedLink>)
    requires LookupSource(groups, "tgmain").Some?
    ensures |links| == 1
    ensures links[0].url == Builders.AppLinkUrl(FormData(Some(App), Some("idea_detail"), Some("42"), Some(""), Some(""), "post_100823", ["tgmain"]), "tgmain")
  {
    var h := new Home(groups);
    h.HandleLinkTypeSelect(App);
    h.ClickDestination(IdeaDetailCard);
    h.UpdateDestinationId("42");
    h.Continue();
    assert h.formData == FormData(Some(App), Some("idea_detail"), Some("42"), Some(""), Some(""), "", []);
    h.UpdateUtmCampaign("post_100823");
    h.ToggleSelected("tgmain");
    var f := FormData(Some(App), Some("idea_detail"), Some("42"), Some(""), Some(""), "post_100823", ["tgmain"]);
    assert h.formData == f;
    h.GenerateLinks();
    assert ["tgmain"][..0] == [];
    links := h.generatedLinks;
  }
}
