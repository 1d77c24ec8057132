# UTM link generator — a Dafny model

The project models the core of a small link generator. It is a four-step wizard in
which a user picks:

1. a link type (application deep link, webinar bot, partner bot);
2. a destination, with an identifier, a tab or an idea name where the destination asks for one;
3. a campaign tag (UTM value) and a set of publication sources.

It then receives one URL per source. The model also covers the input schema that
defines the UTM character class, the webinar-postfix class, the closed lists of base
URLs, page types and inner pages, and the object schemas built from them.

Modules, one per file:

| file | module | what it holds |
|---|---|---|
| wrappers.dfy | `Wrappers` | `Option` |
| text.dfy | `Text` | whitespace, `trim()`, and the whitespace-run rewrite applied to idea names; `join` and `split` on one separator |
| query.dfy | `Query` | a URL's parameter list as key/value pairs, its rendering, and the read-back of a query string (split on `&`, then on the first `=`) |
| schema.dfy | `Schema` | `utmPattern`, the webinar-postfix pattern, `appBaseUrls`, `pageTypes`, `innerPageTypes`, `appLinkSchema` and `webinarLinkSchema`, as predicates, constants and issue lists |
| form.dfy | `Form` | `FormData`, the updates made by selecting a link type or a destination, the idea-name rewrite, both tag-validation strategies, `getValidationError`, `canProceedFromStep`, `toggleSource` |
| builders.dfy | `Builders` | `generateAppLink` (a method that pushes parameters case by case, proved against the specification function `AppLinkUrl`), `generateWebinarBotLink` and `generatePartnerBotLink` |
| generate.dfy | `Generate` | the source lookup and the `forEach` loop of `generateLinks` (`BuildLinks`, which is proved against `LinksFor`) |
| wizard.dfy | `Wizard` | the page state (`currentStep`, `formData`, `generatedLinks`) as class `Home`, with one method per handler |

A written description of the system, not shipped with this project, makes several
statements that the code in client/src/pages/home.tsx contradicts. The model follows the code:

- The description says the application link's base URL is chosen or derived from the source, for example `https://axevil.app.link/igac`. The code always uses `https://axevil.app.link/web` (home.tsx:137).
- The description calls `~feature` an optional secondary tag. The code always pushes `~feature` and gives it the source value (home.tsx:141).
- The description gives the bot payload as `<scenarioPrefix><tag>`. In the code both payloads are `<prefix><source>_<tag>`, with the source first (home.tsx:197, 210-227).
- The description says a source missing from the table is rejected or falls back to a default URL. In the code it yields no link, and no fallback exists (home.tsx:109).
- The description says selecting a bot type resets the scenario to that bot's first scenario. The code sets the destination to `null` (home.tsx:74).
- The description's sample partner link is `https://t.me/axevil_partner_bot?start=getpitch_tgmain_Scale-AI`, for tag `tgmain` and idea name `Scale AI`. The code writes the source before the tag, so those inputs give `getpitch_<source>_tgmain_Scale-AI`. The sample string itself does come out for source `tgmain`, tag `Scale-AI` and no idea name. `Builders.IdeaPitchLinkExample` shows the form of an idea-pitch link.

## Model

| member | source | states |
|---|---|---|
| Text.TrimStart | client/src/pages/home.tsx:266 | the result is a suffix of the input, what was dropped is all whitespace, and the result does not start with whitespace |
| Text.TrimEnd | client/src/pages/home.tsx:266 | the mirror image: a prefix, what was dropped is whitespace, and it does not end with whitespace |
| Text.Trim | client/src/pages/home.tsx:266 | `trim()` is no longer than its input, and a non-empty result starts and ends with a non-space |
| Text.TrimEmptyIffBlank | client/src/pages/home.tsx:266 | `!s.trim()` holds exactly when every character of `s` is whitespace |
| Text.ReplaceSpaceRuns | client/src/pages/home.tsx:411 | `replace(/\s+/g, "-")` leaves no whitespace and never lengthens the text; with the three step lemmas below its result is fixed for every input |
| Text.ReplaceSpaceRunsIdentity | client/src/pages/home.tsx:411 | text without whitespace is left unchanged |
| Text.ReplaceSpaceRunsIdempotent | client/src/pages/home.tsx:411 | applying the rewrite twice gives the same as applying it once |
| Text.ReplaceSpaceRunsKeepsWord | client/src/pages/home.tsx:411 | a whitespace-free stretch at the front is kept as it is, and the rewrite goes on after it |
| Text.ReplaceSpaceRunsLeadingRun | client/src/pages/home.tsx:411 | a whole run of whitespace at the front, however long, becomes one `-`, and the rewrite goes on after it |
| Text.ReplaceSpaceRunsBetweenWords | client/src/pages/home.tsx:411 | a whitespace-free stretch followed by a run of whitespace becomes that stretch and one `-`, and the rewrite goes on with the rest; so every run (leading, interior or trailing) becomes one `-` and every other character is kept in order |
| Text.Split | client/src/pages/home.tsx:189 | (the read-back half of the `&` join; the page itself never splits) splitting always yields at least one piece, and no piece contains the separator |
| Text.SplitJoin | client/src/pages/home.tsx:189 | (read-back half of the join) splitting a join gives the parts back when no part contains the separator |
| Text.JoinFirstTwo | client/src/pages/home.tsx:189 | a join starts with its first two parts with the separator between them, and any further part follows another separator |
| Query.RenderAll | client/src/pages/home.tsx:138-186 | each pushed parameter is written as `key=value`, one string per parameter, keeping their order |
| Query.WithQueryFirstTwo | client/src/pages/home.tsx:189 | the first two parameters come right after the `?`, in order, and anything further follows an `&` |
| Query.KeyPart | client/src/pages/home.tsx:189 | (read-back half of the join) the key read from a piece is its prefix up to the first `=`, or the whole piece when it has none |
| Query.LookupFinds | client/src/pages/home.tsx:189 | (read-back half of the join) reading a key finds nothing exactly when no parameter has that key, and otherwise finds the value of a parameter with that key |
| Query.LookupAppend | client/src/pages/home.tsx:189 | (read-back half of the join) a key is looked up in the earlier parameters first |
| Query.LookupDistinctKeys | client/src/pages/home.tsx:189 | (read-back half of the join) when all keys differ, each key reads back as its own value |
| Query.TransparentAppend | client/src/pages/home.tsx:189 | two parameter lists the query syntax carries without loss are still carried without loss when concatenated |
| Query.ParseRender | client/src/pages/home.tsx:189 | (read-back half of the join) reading a rendered `key=value` gives back the pair when the key has no `=` |
| Query.ParseRenderQuery | client/src/pages/home.tsx:189 | (read-back half of the join) reading a rendered non-empty parameter list gives back the list, in order, when keys have no `=` or `&` and values have no `&` |
| Schema.OneOrMoreEveryChar | shared/schema.ts:4 | `^[C]+$` accepts exactly the non-empty strings whose every character is in `C` |
| Schema.UtmPatternChars | shared/schema.ts:4 | `utmPattern` accepts exactly the non-empty strings of ASCII letters, digits, `_` and `-` |
| Schema.PostfixPatternChars | shared/schema.ts:59-61 | the postfix pattern accepts exactly the non-empty strings of ASCII letters, digits and `-` |
| Schema.PostfixIsUtmWithoutUnderscore | shared/schema.ts:59-61 | a string is a valid postfix exactly when it is a valid UTM value with no `_` |
| Schema.UnderscoreSeparatesPatterns | shared/schema.ts:59-61 | `a_b` is a valid UTM value but not a valid postfix, so the inclusion is strict |
| Schema.AppBaseUrlsFromPaths | shared/schema.ts:7-25 | there are 17 base URLs, each the common host prefix followed by its own path |
| Schema.AppBaseUrlsShareHost | shared/schema.ts:7-25 | every base URL starts with `https://axevil.app.link/` |
| Schema.AppBaseUrlsDistinct | shared/schema.ts:7-25 | the 17 base URLs are pairwise distinct |
| Schema.EnumIssue | shared/schema.ts:44 | an enum field raises an issue exactly when it is missing though required or holds a value outside the enum; at most one issue, reported at that field as "required" or "invalid enum value" |
| Schema.PatternIssue | shared/schema.ts:45-51 | a pattern field raises an issue exactly when it is missing though required or holds a value the pattern refuses; at most one issue, reported at that field as "required" or with the schema's message |
| Schema.AppLinkIssues | shared/schema.ts:43-55 | `appLinkSchema` reports no issue exactly when the base URL is one of the 17, the campaign is present and a UTM value, a present feature is a UTM value, a present page type is one of the 8 and a present inner page is one of the 3; `pageId` is never reported; the campaign is reported exactly when it is missing or not a UTM value; the feature is reported exactly when it is present and not a UTM value |
| Schema.WebinarLinkIssues | shared/schema.ts:58-62 | `webinarLinkSchema` reports no issue exactly when the postfix is present and matches its pattern, and at most one issue otherwise |
| Form.SelectLinkType | client/src/pages/home.tsx:74 | choosing a link type sets it, clears the destination and empties the three extra fields, and keeps the tag and the sources |
| Form.SelectDestination | client/src/pages/home.tsx:79 | choosing a destination sets it, empties the three extra fields, and keeps the type, the tag and the sources |
| Form.IdeaNameInput | client/src/pages/home.tsx:411 | a stored idea name never contains whitespace, and typed text without whitespace is stored as typed |
| Form.IdeaNameExample | client/src/pages/home.tsx:411 | typing `Scale AI` stores `Scale-AI` |
| Form.WebinarTagsAreUtmValues | client/src/pages/home.tsx:258 | each of the 7 webinar tags is a valid UTM value |
| Form.ValidateUtmCampaign | client/src/pages/home.tsx:255-263 | a tag either strategy accepts is never empty |
| Form.TagValidationStrategies | client/src/pages/home.tsx:255-263 | for the webinar bot a tag is valid exactly when it is one of the 7 tags; for any other type, exactly when it is a non-empty `[A-Za-z0-9_-]` string |
| Form.ValidTagIsUtmValue | client/src/pages/home.tsx:255-263 | a tag accepted by either strategy is a valid UTM value |
| Form.GetValidationError | client/src/pages/home.tsx:265-276 | "required" exactly when the tag is blank after trimming; no error exactly when it is not blank and passes the type's strategy; the webinar-tag message exactly when it is not blank, the type is the webinar bot and the tag is not one of the 7 |
| Form.CanProceedFromStep | client/src/pages/home.tsx:83-96 | step 3 may be left exactly when the tag is not blank after trimming and at least one source is selected |
| Form.GenerateEnabledMeansReady | client/src/pages/home.tsx:515 | whenever the generate button is shown, step 3 may be left and the tag is a non-empty UTM value |
| Form.Without | client/src/pages/home.tsx:282 | the filter keeps exactly the other values, changes nothing when the value is absent and never lengthens the list |
| Form.ToggleSource | client/src/pages/home.tsx:278-285 | after a toggle the value is selected exactly when it was not, every other value keeps its state, and an absent value is appended at the end |
| Form.WithoutConcat | client/src/pages/home.tsx:282 | `filter` works piece by piece: the kept values of a concatenation are those of its first part, in order, then those of its second |
| Form.WithoutDistinct | client/src/pages/home.tsx:282 | in a duplicate-free list, filtering out the value at position `k` leaves exactly the values before it followed by the values after it |
| Form.ToggleRemoves | client/src/pages/home.tsx:278-285 | toggling a selected value of a duplicate-free selection removes exactly that entry and keeps the others in their order |
| Form.WithoutAppended | client/src/pages/home.tsx:282-283 | filtering out a value just appended gives back the list it was appended to |
| Form.ToggleTwiceRestores | client/src/pages/home.tsx:278-285 | toggling an unselected value twice restores the selection exactly |
| Form.WithoutKeepsDistinct | client/src/pages/home.tsx:282 | filtering keeps a list free of duplicates |
| Form.ToggleKeepsDistinct | client/src/pages/home.tsx:278-285 | toggling keeps the selection free of duplicates |
| Builders.GenerateAppLink | client/src/pages/home.tsx:136-190 | the URL the method builds by pushing `~campaign`, `~feature` and the destination parameters and joining them equals the specification `AppLinkUrl` for every form and source |
| Builders.PushDestinationParams | client/src/pages/home.tsx:144-187 | the `switch` appends exactly the destination's page type, then its identifier, then its tab, each only where it applies, to the parameters it is given |
| Builders.AppLinkPrefix | client/src/pages/home.tsx:137-141 | every application link starts with `https://axevil.app.link/web?~campaign=<tag>&~feature=<source>`, and whatever follows starts with `&` |
| Builders.AppParamsKeyOrder | client/src/pages/home.tsx:138-187 | the parameters use only the five known keys, each at most once, in the order `~campaign`, `~feature`, `page_type`, `page_id`, `initial_inner_page` |
| Builders.AppQueryKeyOrder | client/src/pages/home.tsx:138-187 | the same key order for the parameters of every form and source |
| Builders.AppParamsLookup | client/src/pages/home.tsx:138-187 | each key reads back as the value it was pushed with, and an optional key that was not pushed is absent |
| Builders.LookupInAppParams | client/src/pages/home.tsx:138-187 | a key is read from `~campaign`, then `~feature`, then the optional parameters in push order |
| Builders.LookupOptional | client/src/pages/home.tsx:150-176 | an optional parameter reads back as its value under its own key, and as nothing under any other key |
| Builders.AppQueryLookup | client/src/pages/home.tsx:144-187 | `page_type` reads back as the destination's mapped type; `page_id` is present exactly for idea_detail, investment_detail and news_detail with a non-empty id; `initial_inner_page` is present exactly for portfolio and investment_detail with a chosen tab |
| Builders.PageTypeTable | client/src/pages/home.tsx:144-187 | a destination has a page type exactly when it is one of the nine named destinations other than `home` |
| Builders.OtherDestinationsBare | client/src/pages/home.tsx:144-187 | `home` and every unknown destination get only `~campaign` and `~feature` |
| Builders.PageTypesCoverEmitted | client/src/pages/home.tsx:149-185 | every page type the builder emits is a member of `pageTypes` |
| Builders.AppLinkReadsBack | client/src/pages/home.tsx:189 | reading the query of an application link gives back exactly its parameter list, in order, when no value contains `&` |
| Builders.AppParamsTransparent | client/src/pages/home.tsx:138-187 | with `&`-free values the parameter list can be read back from the query without loss |
| Builders.GeneratedAppLinkConforms | shared/schema.ts:43-55 | the parameters of a generated link satisfy `appLinkSchema` exactly when the tag and the source are UTM values and any chosen tab is one of the three inner pages |
| Builders.IdeaDetailLinkExample | client/src/pages/home.tsx:154-159 | idea_detail with id `42`, tag `post_100823` and source `tgmain` gives `~campaign=post_100823`, `~feature=tgmain`, `page_type=idea`, `page_id=42`, in that order |
| Builders.WebinarBotLink | client/src/pages/home.tsx:192-203 | the webinar link starts with the bot address, and is exactly the bare address when the destination is not a webinar scenario |
| Builders.WebinarBotLinkShape | client/src/pages/home.tsx:192-202 | invite gives `...?start=web_<source>_<tag>`, application gives `...?start=commit_<source>_<tag>`, and any other destination gives the bare bot address |
| Builders.WebinarBotLinkHasQuery | client/src/pages/home.tsx:192-202 | the webinar link contains `?` exactly when the destination is invite or application |
| Builders.PartnerBotLink | client/src/pages/home.tsx:205-231 | the partner link starts with the bot address, and is exactly the bare address when the destination is not in the scenario table |
| Builders.PartnerBotLinkShape | client/src/pages/home.tsx:205-230 | the partner link is the bot address, then `?start=`, the destination's prefix from the scenario table, `<source>_<tag>` and the idea suffix; an unknown destination gives the bare bot address |
| Builders.PartnerBotLinkHasQuery | client/src/pages/home.tsx:205-230 | the partner link contains `?` exactly when the destination is in the scenario table |
| Builders.IdeaPitchLinkExample | client/src/pages/home.tsx:217-221 | idea_pitch with the name `Scale-AI`, tag `post_100823` and source `tgmain` gives `...?start=getpitch_tgmain_post_100823_Scale-AI` |
| Builders.SelectionClearsExtras | client/src/pages/home.tsx:78-81 | right after a destination is selected, the links carry no `page_id`, no `initial_inner_page` and no idea suffix |
| Builders.ContinueAsWrittenDropsPageId | client/src/pages/home.tsx:442-448 | an idea_detail form with id `42` yields `page_id=42`, but after the "Continue" button re-selects the destination it yields no `page_id` |
| Generate.FindInGroup | client/src/pages/home.tsx:107 | finds nothing exactly when no entry has the value; anything found is an entry of the group with that value |
| Generate.FindInGroupFirst | client/src/pages/home.tsx:107 | what is found is the first entry with the value |
| Generate.FindGroup | client/src/pages/home.tsx:104-106 | finds nothing exactly when no group holds the value; anything found is a group that holds it |
| Generate.FindGroupFirst | client/src/pages/home.tsx:104-106 | what is found is the first group that holds the value |
| Generate.LookupSource | client/src/pages/home.tsx:104-107 | an entry found for a value has that value |
| Generate.LookupSourceFound | client/src/pages/home.tsx:104-109 | a value is found exactly when some group holds it, and what is found is a table entry with that very value |
| Generate.LookupSourceFirst | client/src/pages/home.tsx:104-109 | for a value listed more than once, the entry found, and so the label shown, is the first entry with it in the first group that holds it |
| Generate.LinkUrl | client/src/pages/home.tsx:110-122 | the `switch` on the link type yields a non-empty URL exactly when a type is chosen |
| Generate.FoundSources | client/src/pages/home.tsx:103-109 | there are never more found values than selected values |
| Generate.FoundSourcesMembers | client/src/pages/home.tsx:103-109 | the found values are exactly the selected values that are in the table |
| Generate.LinksForFoundSources | client/src/pages/home.tsx:103-130 | links come out for exactly the found values, in selection order, and each link carries its value, that value's label and the URL of the chosen type |
| Generate.AtMostOneLinkPerSelection | client/src/pages/home.tsx:103-130 | there are never more links than selected values, and every link belongs to a selected value |
| Generate.FoundSourcesKeepsDistinct | client/src/pages/home.tsx:103-109 | keeping the found values of a duplicate-free selection leaves no duplicates |
| Generate.OneLinkPerSource | client/src/pages/home.tsx:103-130 | a duplicate-free selection yields at most one link per source |
| Generate.FoundSourcesAllFound | client/src/pages/home.tsx:103-109 | when every selected value is in the table, all of them are kept |
| Generate.LinksForAllFound | client/src/pages/home.tsx:103-130 | when every selected value is in the table, the k-th link is the link of the k-th selected value |
| Generate.BuildLinks | client/src/pages/home.tsx:101-130 | the loop that looks up each selected value and pushes its link produces exactly `LinksFor` of the selection |
| Wizard.Home.constructor | client/src/pages/home.tsx:45-52 | the wizard starts at step 1 with the empty form and no links |
| Wizard.Home.GoToNextStep | client/src/pages/home.tsx:60-64 | the step goes up by one below 4 and stays at 4; nothing else changes |
| Wizard.Home.GoToPrevStep | client/src/pages/home.tsx:66-70 | the step goes down by one above 1 and stays at 1; nothing else changes |
| Wizard.Home.HandleLinkTypeSelect | client/src/pages/home.tsx:73-76 | the form becomes `SelectLinkType` of the old form and the wizard moves on |
| Wizard.Home.HandleDestinationSelect | client/src/pages/home.tsx:78-81 | the form becomes `SelectDestination` of the old form and the wizard moves on |
| Wizard.Home.ClickDestination | client/src/pages/home.tsx:357-369 | a card is selected with its extra fields emptied; the wizard moves on only for a card that asks for no extra input |
| Wizard.Home.UpdateDestinationId | client/src/pages/home.tsx:396 | only the identifier changes |
| Wizard.Home.UpdateIdeaName | client/src/pages/home.tsx:410-412 | only the idea name changes, to the rewritten input, so it holds no whitespace |
| Wizard.Home.UpdateSubPage | client/src/pages/home.tsx:426 | only the tab changes |
| Wizard.Home.UpdateUtmCampaign | client/src/pages/home.tsx:468 | only the tag changes |
| Wizard.Home.ToggleSelected | client/src/pages/home.tsx:278-285 | only the selection changes, by `ToggleSource`, and it stays free of duplicates |
| Wizard.Home.GenerateLinks | client/src/pages/home.tsx:98-134 | nothing changes unless a type, a non-empty destination and a non-empty tag are set; otherwise the links become `LinksFor` of the selection and the wizard moves on; the form is never changed |
| Wizard.Home.ContinueAsWritten | client/src/pages/home.tsx:442-448 | the button re-selects the current destination, which empties the fields just entered, and moves on |
| Wizard.Home.Continue | client/src/pages/home.tsx:442-448 | the corrected button moves on and leaves the form as entered |
| Wizard.Home.StartOver | client/src/pages/home.tsx:573-582 | the wizard returns to step 1 with the empty form and no links |
| Wizard.IdeaDetailSessionAsWritten | client/src/pages/home.tsx:442-448 | clicking through an idea_detail session with id `42` and the button as written yields one link, built from a form whose id is empty |
| Wizard.IdeaDetailSessionCorrected | client/src/pages/home.tsx:442-448 | the same session with the corrected button yields one link, built from a form that still holds id `42` |

Every handler of `Wizard.Home` except `GoToNextStep` and `GoToPrevStep` also keeps `Home.Valid`: the selection has no duplicates and a stored idea name has no whitespace. That is, the selection starts empty and only toggling changes it.

## Left out

- Rendering: the JSX of the four steps, the progress bar and the navigation buttons (home.tsx:287-649) are presentation only. The buttons' effects are modelled as the methods above.
- Clipboard and notifications: `copyToClipboard`, `copyAllLinks` and the copied-index timer (home.tsx:233-253) are browser I/O.
- Delays: the `setTimeout` calls that delay step changes by 300 ms (home.tsx:75, 80, 133) are modelled as immediate step changes. So the model misses one consequence. The guard in `goToNextStep` (home.tsx:61) reads the `currentStep` captured when the timer was scheduled. Two clicks within 300 ms both pass it, and each timer then adds one. A double click on "Generate" at step 3 can set the step to 5, where nothing renders (home.tsx:626-629) and no Back button shows (home.tsx:633). The 1-to-4 bound that `Form.Step` enforces holds only in this immediate-step model. For the same reason, a value typed during the 300 ms before a delayed step change is not modelled.
- React plumbing: `useState` and `updateFormData` become the fields of `Wizard.Home` and direct assignments to them.
- Lookup tables: the tables imported from `@/lib/constants` (link types, destinations, tabs, source groups) are not modelled. The source groups are a constructor parameter of `Wizard.Home`, and a destination card is a parameter of `ClickDestination`.
- Validation and pattern libraries: zod and the JavaScript regular-expression engine are not modelled. The schemas become predicates plus lists of field issues. Zod's own issue objects, their exact wording beyond the schema's message, and its type inference (schema.ts:64-65) are left out.
- Unicode whitespace: `trim()` and `\s` are modelled over space, tab, line feed, carriage return, vertical tab and form feed only. The many other Unicode spaces JavaScript also counts are left out.
- Builders.GenerateAppLink: the pushed template strings are kept as key/value pairs and written out as `key=value` only at the join. The URL is the same string either way.
- Builders.AppLinkReadsBack: the read-back holds only when no value contains `&`, because the builder applies no percent-encoding. Values with `&` are not covered.
- Generate.LinkUrl: the URL for a form without a link type is the empty string, as the unmatched `switch` leaves it. `generateLinks` never reaches that case because its guard rejects such a form.

## Findings

| source | as written | input that shows it | evidently intended | confidence | as-written member | corrected member |
|---|---|---|---|---|---|---|
| client/src/pages/home.tsx:442-448 | The "Continue" button shown under a destination's extra fields calls `handleDestinationSelect(formData.destination!)`. That handler sets `destinationId`, `subPage` and `ideaName` back to `""`, so the values just entered are cleared before the next step. `page_id`, `initial_inner_page` and the idea suffix can then never reach a link through the page. | Application link, click idea_detail, type `42`, press "Continue", tag `post_100823`, source `tgmain`: the link has no `page_id=42`. | "Continue" moves to the next step and keeps what was entered. | not executed | Wizard.Home.ContinueAsWritten, Builders.ContinueAsWrittenDropsPageId, Wizard.IdeaDetailSessionAsWritten | Wizard.Home.Continue, Wizard.IdeaDetailSessionCorrected |
