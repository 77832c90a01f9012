# Workday form mapper, modelled in Dafny

`workday_scraper.py` signs in to a Workday career site and crawls its pages.
On every page it catalogues the input fields it finds. Each catalogue entry
(`FormElement`) records:

- a label;
- an identifier;
- whether the field is required;
- a category;
- the choices the field offers;
- one or two sample values.

This project models that core as Dafny definitions over a fixed snapshot of
what the browser would answer, and proves properties of it.

A snapshot `Page` holds:

- the match list of each selector;
- each control's attributes, visibility and enabled state, text and ancestors;
- the options of native `<select>` elements;
- what a script-driven dropdown shows once clicked or typed into;
- the resolution of relative links.

The modules follow the scraper's structure:

| file | models |
|---|---|
| `seqs.dfy` | sequence helpers: no-duplicates, subsequence, flattening, prefixes |
| `pytext.dfy` | the Python string operations used: `strip`, `lower`, `split`, `in`, `replace`, `title`, the two `re.sub` rewrites |
| `urls.dfy` | `urlparse` as far as the scraper reads it: scheme, network location, path |
| `snapshot.dfy` | the page snapshot |
| `form_elements.dfy` | `FormElement` and the identifier-based deduplication |
| `control_data.dfy` | `_get_element_data`: identifier precedence, label and required flag |
| `labels.dfy` | `_find_element_label` and its eight strategies |
| `required.dfy` | `_is_element_required` |
| `samples.dfy` | `_generate_sample_text_value` and `_generate_sample_date` |
| `select_options.dfy` | `_get_select_options` |
| `simple_fields.dfy` | text inputs, text areas, select-like controls, date and file inputs |
| `choice_groups.dfy` | checkbox and radio groups and their `processed_groups` set |
| `page_extraction.dfy` | `extract_form_elements` |
| `navigation.dfy` | `find_navigation_links` |
| `login.dfy` | `find_workday_login_url` and `login` |
| `crawler.dfy` | `crawl_and_extract`; the `WorkdayFormMapper` class holds `visited_urls` and `all_form_elements` |

## How the model is built

Each of the scraper's accumulating loops is a Dafny method with a loop. Each
method is proved equal to a specification function, and the lemmas state what
the scraper promises about that function. The functions are defined by
recursion from the end of the sequence, so each pass of a loop that appends
matches one unfolding.

The label search's first-match loops are recursive functions, and have no
method: the nearby-label probes (`workday_scraper.py:954-962`), the four
ancestors with their inner probe loop (966-982), and the lines of the
surrounding text (997-1006). Each returns at its first hit. That behaviour is
stated by an index lemma: `FirstFittingSpec` with `FitIndex`,
`FromAncestorsSpec` with `AncestorIndex`, and `FirstPromptLineSpec` with
`PromptIndex`.

Where the scraper catches an exception and moves on, the snapshot says whether
the call succeeds:

- `Dropdown.opens` and `Dropdown.typeable` say whether the dropdown click and
  the typing succeed;
- an entry control's `clickLandsOn` is `None` when its click fails;
- an address missing from `web` fails to open;
- an address missing from `Site.forms` fails to open for sign-in.

The label lookup raises a `NameError` when it reaches its last fallback for a
control without a `type` attribute (`workday_scraper.py:1027`). The handler at
line 1031 raises the same error again. `_get_element_data` then returns `None`,
so the control is dropped. In the checkbox and radio group loops, that member
is passed over. `FindLabel` returns `None` in exactly that case
(`Labels.FindLabelChain`).

## Model

| member | source | states |
|---|---|---|
| FormElements.FirstIndex | workday_scraper.py:504-507 | the first position carrying an identifier does carry it, and no earlier one does |
| FormElements.DedupIds | workday_scraper.py:500-508 | deduplication keeps every identifier of the input and invents none |
| FormElements.DedupDistinct | workday_scraper.py:500-508 | no two kept entries share an identifier |
| FormElements.DedupSubseq | workday_scraper.py:500-508 | the kept entries are the input with some entries deleted, order preserved |
| FormElements.DedupFirstWins | workday_scraper.py:500-508 | each kept entry is the first input entry with its identifier |
| FormElements.RemoveDuplicateIds | workday_scraper.py:1265-1273 | the `seen_ids` loop computes `Dedup` |
| ControlData.ElementId | workday_scraper.py:887-892 | the automation id, else `id`, else `name`, else `element_` plus the hash token; the first non-empty one wins, and the result is never empty |
| ControlData.ElementData | workday_scraper.py:883-909 | an entry exists exactly when the label lookup succeeds; it carries the identifier, label, required flag and category, with no choices and no samples yet |
| Required.IsRequired | workday_scraper.py:1033-1076 | required exactly when one of the probes says so: the `required` attribute, `aria-required="true"`, "required" in the class, or a marker, asterisk or "required" on the parent (both directions) |
| Samples.InputType | workday_scraper.py:550 | the type used for the rules is never empty (`text` by default) |
| Samples.SampleTextValue | workday_scraper.py:547-589 | the sample is one of the fixed samples; it is the e-mail address exactly for e-mail fields; phone comes next; the default is reached only for labels without "name" or "address" and types other than number and url |
| Samples.SampleDate | workday_scraper.py:821-846 | the sample is one of the fixed dates; the birth date is used exactly for birth labels; the default is reached only when no start or end word occurs |
| Samples.DateSamplesAreIso | workday_scraper.py:825-846 | every date the rules can produce has the form YYYY-MM-DD with month 01-12 and day 01-31 |
| Samples.SampleDateIsIso | workday_scraper.py:821-846 | whatever the label, the date sample has the form YYYY-MM-DD with month 01-12 and day 01-31 |
| Labels.FirstFitting | workday_scraper.py:954-962 | a found structural label is stripped text of length 6 to 199 |
| Labels.FirstFittingSpec | workday_scraper.py:954-962 | nothing is found exactly when no probe is visible with a fitting length; otherwise the result is the stripped text of the first probe that fits |
| Labels.FromAncestors | workday_scraper.py:964-982 | a label found among the four nearest ancestors has length 6 to 199 |
| Labels.FromAncestorsSpec | workday_scraper.py:964-982 | the label is the first fitting label of the nearest ancestor that holds one; nearer ancestors hold none; with none, nothing is found |
| Labels.FirstPromptLine | workday_scraper.py:989-1006 | a chosen parent-text line has length 6 to 149 and ends in `?` or `:` or mentions enter, select, choose or provide |
| Labels.FirstPromptLineSpec | workday_scraper.py:996-1006 | the chosen line is the cleaned form (white-space runs collapsed, then stripped) of the first line that reads like a prompt once cleaned; no earlier line does; with none, nothing is chosen |
| Labels.Humanize | workday_scraper.py:1014-1024 | the phrase is at least as long as the identifier |
| Labels.HumanizeKeepsIdentifier | workday_scraper.py:1016-1018 | ignoring spaces, `_`, `-` and case, the phrase spells the identifier |
| Labels.HumanizeIsTitleCased | workday_scraper.py:1018 | the phrase is title-cased: a letter after a letter is not upper case, and any other letter is not lower case |
| Labels.FindLabel | workday_scraper.py:911-1031 | a found label is never empty; a non-blank `aria-label` wins; a control with a `type` always gets a label; the lookup fails only without `type`, `name`, placeholder or `aria-label` |
| Labels.FindLabelChain | workday_scraper.py:911-1031 | the eight strategies are tried in order and the first that finds a label decides; only when all find nothing is `Unnamed <type> field` built; the lookup fails exactly when all eight find nothing and the control has no `type` |
| SelectOptions.PopupTexts | workday_scraper.py:1129-1140 | popup texts are distinct, non-empty, under 100 characters and no placeholder |
| SelectOptions.SuggestionTexts | workday_scraper.py:1162-1168 | suggestion texts are non-empty and under 100 characters |
| SelectOptions.DistinctChoices | workday_scraper.py:1130-1138 | the texts kept are distinct and each passes the filter |
| SelectOptions.DistinctChoicesSound | workday_scraper.py:1131-1138 | every kept text is the text of a visible match |
| SelectOptions.DistinctChoicesComplete | workday_scraper.py:1131-1138 | the text of every visible match that passes the filter is kept |
| SelectOptions.DistinctChoicesLength | workday_scraper.py:1130-1138 | no more texts are kept than there are matches |
| SelectOptions.VisibleChoices | workday_scraper.py:1164-1168 | every text kept passes the filter |
| SelectOptions.VisibleChoicesSound | workday_scraper.py:1165-1168 | every kept text is the text of a visible match |
| SelectOptions.VisibleChoicesComplete | workday_scraper.py:1165-1168 | the text of every visible match that passes the filter is kept |
| SelectOptions.VisibleChoicesLength | workday_scraper.py:1164-1168 | no more texts are kept than there are matches |
| SelectOptions.PopupTextsMembers | workday_scraper.py:1130-1138 | a popup selector keeps exactly the stripped texts of its visible matches that are non-empty, under 100 characters and no placeholder, and no more texts than matches |
| SelectOptions.SuggestionTextsMembers | workday_scraper.py:1164-1168 | a suggestion selector keeps exactly the stripped texts of its visible matches that are non-empty and under 100 characters, and no more texts than matches |
| SelectOptions.PopupYieldSpec | workday_scraper.py:1130 | a popup selector contributes at most 20 texts, all from its first 20 matches, and every qualifying text among them |
| SelectOptions.SuggestionYieldSpec | workday_scraper.py:1164 | a suggestion selector contributes at most 10 texts, all from its first 10 matches, and every qualifying text among them |
| SelectOptions.UniqueMembers | workday_scraper.py:1193-1199 | a text is kept exactly when it occurs and is non-empty |
| SelectOptions.UniqueDistinct | workday_scraper.py:1193-1199 | the kept texts are distinct |
| SelectOptions.UniqueSubseq | workday_scraper.py:1193-1199 | the kept texts keep their original order |
| SelectOptions.UniqueSpec | workday_scraper.py:1193-1199 | deduplication keeps exactly the non-empty texts, once each, in order |
| SelectOptions.UniqueOfDistinct | workday_scraper.py:1193-1199 | a list already without duplicates or empty texts is unchanged |
| SelectOptions.OptionsShape | workday_scraper.py:1193-1201 | the choices are distinct, non-empty, at most 15, and in the order offered |
| SelectOptions.NativeTextsMembers | workday_scraper.py:1086-1098 | a native option text is kept exactly when it is non-empty and no placeholder (text first, `value` as fallback) |
| SelectOptions.NativeOptions | workday_scraper.py:1084-1098 | every choice of a native `<select>` is an option text and no placeholder; with at most 15 distinct texts, every such text is a choice |
| SelectOptions.FirstYieldSpec | workday_scraper.py:1123-1145 | the popup and suggestion scans return what the first selector that contributes anything contributes; every earlier selector contributes nothing; with none, the result is empty |
| SelectOptions.NoOptionsWhenClosed | workday_scraper.py:1101-1107 | a control without options whose click fails has no choices |
| SelectOptions.CollectNativeOptions | workday_scraper.py:1087-1098 | the option loop computes `NativeTexts` |
| SelectOptions.CollectPopup | workday_scraper.py:1130-1140 | the loop over one popup selector computes `PopupTexts` |
| SelectOptions.ScanPopup | workday_scraper.py:1123-1145 | the popup selector loop stops at the first one that yields anything |
| SelectOptions.CollectSuggestions | workday_scraper.py:1164-1168 | the loop over one suggestion selector computes `SuggestionTexts` |
| SelectOptions.ScanSuggestions | workday_scraper.py:1162-1170 | the suggestion selector loop stops at the first one that yields anything |
| SelectOptions.GatherOptions | workday_scraper.py:1083-1176 | native options, else popup entries, else typeahead suggestions, as `RawOptions` says |
| SelectOptions.RemoveRepeats | workday_scraper.py:1193-1199 | the `seen` loop computes `Unique` |
| SelectOptions.GetSelectOptions | workday_scraper.py:1078-1205 | the result is `Options`: the first 15 distinct non-empty texts gathered |
| SimpleFields.EntryCommon | workday_scraper.py:525-535 | a control yields an entry exactly when it is visible, enabled and labelled; the entry carries its identifier, label and required flag |
| SimpleFields.TextEntry | workday_scraper.py:525-535 | a text input has one sample, a fixed text sample, which is the e-mail address exactly for e-mail fields |
| SimpleFields.SelectEntry | workday_scraper.py:627-655 | multi-select exactly for `multiple` or a "multi" automation id; the choices are `Options`; samples exist exactly when there are choices, and are the first one (single) or the first two (multi) |
| SimpleFields.DateEntry | workday_scraper.py:799-809 | a date input's sample is the label-driven date, of the form YYYY-MM-DD with month 01-12 and day 01-31 |
| SimpleFields.FileEntry | workday_scraper.py:856-871 | the choices joined with commas give back `accept` when present, else they are `.pdf`, `.doc`, `.docx`; the sample is `resume.pdf` |
| SimpleFields.ScanMembers | workday_scraper.py:525-540 | the scan keeps exactly the entries the controls yield, and no more entries than controls |
| SimpleFields.ExtractOne | workday_scraper.py:625-655 | the body of a category loop for one control computes `Entry` |
| SimpleFields.ScanOne | workday_scraper.py:525-535 | one pass appends the control's entry, if any |
| SimpleFields.ScanMatches | workday_scraper.py:523-540 | the loop over one selector's matches computes `Scan` |
| SimpleFields.ExtractField | workday_scraper.py:517-545 | every selector, every match, in order: `FieldElements` |
| ChoiceGroups.GroupLabels | workday_scraper.py:693-704 | a checkbox group's options are distinct non-empty labels |
| ChoiceGroups.VisibleLabels | workday_scraper.py:696-702 | the labels a lookup finds for the visible members of a group are distinct |
| ChoiceGroups.VisibleLabelsSound | workday_scraper.py:697-701 | every entry is the label the lookup finds for a visible member |
| ChoiceGroups.VisibleLabelsComplete | workday_scraper.py:697-701 | the label found for every visible member is an entry |
| ChoiceGroups.VisibleLabelsAll | workday_scraper.py:696-702 | with every member visible and labelled and no two labels equal, there is one entry per member, in order |
| ChoiceGroups.VisibleLabelsNonEmpty | workday_scraper.py:697-701 | when the lookup never finds an empty text, no entry is empty |
| ChoiceGroups.GroupLabelsMembers | workday_scraper.py:693-704 | a text is an option of a checkbox group exactly when a visible member has it as its label |
| ChoiceGroups.GroupLabelsAll | workday_scraper.py:693-704 | when every member is visible and labelled with distinct labels, the options are the members' labels, one per member, in order |
| ChoiceGroups.SingleCheckbox | workday_scraper.py:713-722 | yes/no exactly when the label reads like agreement, checked/unchecked otherwise; the result is a choice entry |
| ChoiceGroups.CheckboxSkipsProcessed | workday_scraper.py:682-686 | a checkbox of a processed group yields nothing and changes nothing |
| ChoiceGroups.CheckboxStepEntry | workday_scraper.py:676-722 | a checkbox yields an entry exactly when it is visible, enabled, labelled and its group key is not processed; that entry is a group entry listing the group's labels (and its key becomes processed), or an entry on its own (set unchanged); any entry is a choice whose sample is its first option |
| ChoiceGroups.CheckboxScanShape | workday_scraper.py:667-732 | over a whole scan every entry is a checkbox choice, no group is taken twice, and the processed set is exactly the groups taken |
| ChoiceGroups.RadioOptions | workday_scraper.py:757-771 | radio group options are distinct and non-empty |
| ChoiceGroups.ValueOrLabel | workday_scraper.py:757-769 | the values or labels collected from a radio group are distinct |
| ChoiceGroups.ValueOrLabelSound | workday_scraper.py:759-769 | every entry is the value or the found label of a visible member |
| ChoiceGroups.ValueOrLabelGrow | workday_scraper.py:757-769 | entries collected from the first members are kept as later members are read |
| ChoiceGroups.ValueOrLabelComplete | workday_scraper.py:759-769 | a visible member's non-empty `value` is an entry; without one, its found label is |
| ChoiceGroups.ValueOrLabelNonEmpty | workday_scraper.py:760-769 | when the lookup never finds an empty text, no entry is empty |
| ChoiceGroups.RadioOptionsMembers | workday_scraper.py:757-771 | a visible member's non-empty value is an option, and a visible member without one contributes its found label; every option is the value or the found label of a visible member (a member whose value is already an option may add its label) |
| ChoiceGroups.RadioStepEntry | workday_scraper.py:743-779 | no name or a processed name yields nothing; a usable named radio marks its name processed even if its label fails; an entry is a choice without repeated options, defaulting to two placeholder options |
| ChoiceGroups.RadioScanShape | workday_scraper.py:734-789 | at most one entry per radio name; the processed set is exactly the names of the usable radios seen; every entry is a radio choice |
| ChoiceGroups.CheckboxOne | workday_scraper.py:676-722 | one checkbox pass computes `CheckboxStep` |
| ChoiceGroups.RadioOne | workday_scraper.py:743-779 | one radio pass computes `RadioStep` |
| ChoiceGroups.CheckboxMatches | workday_scraper.py:674-727 | one selector's checkboxes continue the scan of the earlier selectors |
| ChoiceGroups.ExtractCheckboxes | workday_scraper.py:667-732 | one `processed_groups` set across all selectors: `CheckboxElements` |
| ChoiceGroups.RadioMatches | workday_scraper.py:741-784 | one selector's radios continue the scan of the earlier selectors |
| ChoiceGroups.ExtractRadios | workday_scraper.py:734-789 | one `processed_groups` set across all selectors: `RadioElements` |
| PageExtraction.FieldElementsShape | workday_scraper.py:517-545 | every entry of a one-at-a-time category has an identifier and that category |
| PageExtraction.ChoiceElementsShape | workday_scraper.py:667-789 | every checkbox entry is a checkbox choice and every radio entry a radio choice |
| PageExtraction.CollectedIds | workday_scraper.py:491-498 | every entry gathered from a page has an identifier |
| PageExtraction.PageElementsSpec | workday_scraper.py:491-508 | a page's catalogue has distinct identifiers, loses none, keeps category order, keeps the first entry per identifier, and has no empty identifier |
| PageExtraction.ExtractFormElements | workday_scraper.py:475-515 | the seven extractors in order, then deduplication: `PageElements` |
| Navigation.CollectLinks | workday_scraper.py:426-466 | collected links are distinct, on the configured host, unvisited, on another path and not exits |
| Navigation.CollectLinksStep | workday_scraper.py:449-458 | one more control keeps what was collected and adds its URL when that passes the filter |
| Navigation.CollectLinksKeeps | workday_scraper.py:449-458 | a URL offered by a control that passes the filter is collected |
| Navigation.CollectLinksComplete | workday_scraper.py:449-458 | every offered URL that passes the filter is collected |
| Navigation.CollectLinksSound | workday_scraper.py:431-458 | every collected link was offered by one of the controls |
| Navigation.RootedLinkOnHost | workday_scraper.py:439-440 | a root-relative `href` becomes `https://` plus the configured host plus the path, and stays on that host |
| Navigation.OfferedUrl | workday_scraper.py:431-444 | the visibility and `href` checks and the absolute-URL rules compute `Offered` |
| Navigation.ConsiderLink | workday_scraper.py:430-462 | one control extends the collected links as `CollectLinks` says |
| Navigation.LinksFromMatches | workday_scraper.py:428-462 | one selector's matches continue the collection of the earlier selectors |
| Navigation.FindNavigationLinks | workday_scraper.py:397-473 | the result is `NavigationLinks`: every selector and match, filtered against the configured host and the current path |
| Login.ClickAway | workday_scraper.py:196-210 | a URL an entry control leads to differs from the configured URL |
| Login.ClickAwaySpec | workday_scraper.py:196-212 | within one selector, the first visible control whose click does not land back on the configured URL decides: the result is where it lands, or nothing when its click fails; every control before it is hidden or lands back |
| Login.FirstClickAway | workday_scraper.py:193-214 | a URL the entry selectors lead to differs from the configured URL |
| Login.FirstClickAwaySpec | workday_scraper.py:193-214 | the first selector that leads away decides; every earlier selector leads nowhere; with none, nothing is found |
| Login.Candidates | workday_scraper.py:217-226 | scheme and host followed by `/candidate`, `/signin`, `/login`, then the configured URL with each non-overlapping `/details/` replaced by `/`, cut before its first `?` (all of it when there is none) |
| Login.FirstWithForm | workday_scraper.py:228-241 | a candidate showing a sign-in field, or none when no candidate does |
| Login.FirstWithFormSpec | workday_scraper.py:228-241 | the candidates are tried in order and the first one with a sign-in field is taken; none before it has one |
| Login.FindLoginUrlCases | workday_scraper.py:153-249 | the configured URL when it cannot be opened; the landed URL when it reads like a sign-in page; else where the deciding visible control of the first selector that leads away lands, earlier selectors and controls leading nowhere; else the first candidate with a sign-in field; else the configured URL |
| Login.FirstWin | workday_scraper.py:291-369 | the first strategy whose three elements are present and whose submission looks successful, and no earlier one |
| Login.SignInSpec | workday_scraper.py:251-395 | sign-in succeeds exactly when some strategy on the sign-in page wins, and lands where the first winner lands |
| Login.SearchEntryPoints | workday_scraper.py:193-214 | the selector and control loops compute `FirstClickAway` |
| Login.FindWorkdayLoginUrl | workday_scraper.py:153-249 | the search computes `FindLoginUrl` |
| Login.LogIn | workday_scraper.py:251-395 | the strategy loop computes `SignIn` |
| PyText.Lower | workday_scraper.py:549 | `lower()` maps each character to its lower-case form and keeps the length |
| PyText.Strip | workday_scraper.py:998 | `strip()` leaves no whitespace at either end |
| PyText.StripCuts | workday_scraper.py:998 | where `strip()` cuts: everything before the first kept position and from the end of the result on is white space, and the result is what lies between |
| PyText.StripSpec | workday_scraper.py:998 | `strip()` returns a slice of its input, and everything cut off on either side is white space |
| PyText.Split | workday_scraper.py:996 | `split` gives at least one piece, no piece contains the separator, and the first piece is a prefix |
| PyText.SplitFirstPiece | workday_scraper.py:225 | the first piece of a `split` runs up to the first separator, or is the whole string when there is none |
| PyText.SplitJoin | workday_scraper.py:866 | joining the pieces of a `split` with the separator gives back the original string |
| PyText.SeparatorsToSpaces | workday_scraper.py:1016 | every `_` and `-` becomes a space, and nothing else changes |
| PyText.SplitCamel | workday_scraper.py:1017 | inserting spaces at lower-to-upper boundaries never shortens the text |
| PyText.Title | workday_scraper.py:1018 | `title()` keeps the length |
| Urls.Netloc | workday_scraper.py:423 | the network location of a URL contains no `/`, `?` or `#` |
| Urls.RootedNetloc | workday_scraper.py:439-449 | `https://` plus a host plus a root-relative path parses back to that host |
| Crawler.Enqueue | workday_scraper.py:1250-1252 | the queue is extended only at its end, by links neither visited nor queued; no duplicates are introduced; at most one address per link |
| Crawler.EnqueueLinks | workday_scraper.py:1250-1252 | the queueing loop computes `Enqueue` |
| Crawler.RunStep | workday_scraper.py:1221 | while the queue is non-empty and the budget remains, the crawl continues from the next turn |
| Crawler.VisitDrops | workday_scraper.py:1224-1233 | a visited head, or one that is not the current page and does not open, is only removed from the queue |
| Crawler.VisitProcesses | workday_scraper.py:1229-1254 | a head that opens is marked visited, its page is appended, and the page's first five links are queued |
| Crawler.VisitSpec | workday_scraper.py:1221-1263 | a turn keeps the invariant (queue without duplicates and disjoint from the visited set, one visited address per page); it either drops the head or processes it; new queue entries come from the page's first five links; a head is dropped exactly when it is not current and does not open |
| Crawler.RunSpec | workday_scraper.py:1221-1263 | the crawl ends with an empty queue or a used-up budget, never exceeds the budget, keeps the invariant and only grows |
| Crawler.FoundOf | workday_scraper.py:1238-1242 | catalogues gathered page by page concatenate to `Found` |
| Crawler.FoundSpec | workday_scraper.py:1238-1242 | every entry found has an identifier and comes from the catalogue of a processed page |
| Crawler.CrawlSpec | workday_scraper.py:1207-1275 | nothing when sign-in fails; otherwise distinct non-empty identifiers covering those found; as many pages processed as addresses visited; at most `max_pages` pages; the queue is empty unless the budget is used up |
| Crawler.WorkdayFormMapper.constructor | workday_scraper.py:60-67 | a new mapper has visited nothing and found nothing |
| Crawler.WorkdayFormMapper.RecordPage | workday_scraper.py:1235-1243 | the page's address becomes visited, and its catalogue (`PageElements`) is appended to `all_form_elements` |
| Crawler.WorkdayFormMapper.QueueLinks | workday_scraper.py:1245-1252 | the first five of the page's navigation links are queued after the remaining queue, skipping visited and already-queued addresses (`Enqueue`) |
| Crawler.WorkdayFormMapper.Traverse | workday_scraper.py:1215-1263 | the loop leaves `visited_urls` and `all_form_elements` as `Run` from the signed-in page says |
| Crawler.WorkdayFormMapper.CrawlAndExtract | workday_scraper.py:1207-1275 | no change and no result when sign-in fails; otherwise the fields as the crawl leaves them, and the result is their deduplication |

## Left out

- Browser start-up, clean-up, JSON export, `main` and configuration loading are not modelled. They are I/O around the core.
- `setup.py` is not part of this model.
- Playwright itself is not modelled: selector matching, waits, timeouts and `:visible` filtering. The snapshot gives each selector's matches and each element's visibility directly.
- `asyncio` scheduling is not modelled. The scraper awaits every call in turn, so the model is sequential.
- Logging is not modelled, and neither are the error-message scan after a failed sign-in attempt (`workday_scraper.py:349-362`) and the list of inputs logged when every strategy fails (374-386). Both only log.
- Relative links are not resolved by a model of `urljoin`. The snapshot's `Page.joined` function gives the resolution of each relative `href`. Like `urljoin`, it always returns a URL.
- `urlparse` is modelled only as far as it is read: scheme, network location and path. Leading control characters and embedded tabs or newlines are not removed.
- The hash in `element_<hash>` is not computed. `Control.token` stands for it.
- `lower()` and `title()` change ASCII letters only. There is no Unicode case mapping. `strip()`, `isspace()` and `\s` use Python's full white-space set (`PyText.IsSpace`).
- An exception inside a single probe is not modelled, apart from the cases named under "How the model is built". This covers a selector that raises, an element that detaches, and an `inner_text` that fails. So is the outer handler of `extract_form_elements`, which turns any such failure into an empty catalogue.
- What clicking a dropdown, typing into it or pressing Escape does to the page is not modelled. The popup and suggestion matches are per-control values of the snapshot. The real page shares them between all controls and keeps whatever the previous control left open.
- The page changes made by entry-control clicks during the entry-point search are abstracted into `EntryProbe`. So are strategies that run on the page an earlier failed strategy left behind, which are abstracted into the `Attempt` values for each address.
- A failed `goto` during the crawl is modelled as leaving the browser on the page it was on.
- The wait between pages (`wait_between_pages`) is not modelled, because it only delays.
- The configured `max_pages` is taken as an integer parameter; the default of 10 is not modelled.
