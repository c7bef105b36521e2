# CVAT UI form and menu logic in Dafny

This project models the decision logic of several CVAT web UI components:
- the task-creation "advanced configuration" form: its integer, overlap, stop-frame and URL rules, and the storage and frame-filter resolution done on submit;
- the webhook set-up page: event grouping by category, event collection, and the edit-mode inference and pre-fill of the per-category flags;
- the ground-truth job form: the synchronised percentage and frame-count fields, and the job payload;
- the shared validation patterns, as predicates over the UTF-16 code units JavaScript matches them against;
- the export-dataset dialog: its storage choice, file name, default format, dumper list and help text;
- the job, task and project action menus: weighted item lists, the stable sort, confirmation gating, and the job stage/state transitions;
- the analytics overview: per-kind layout rows, views, series colours, series values and labels;
- the draw-shape popover: point-count normalisation and which controls show.

Each component is one module. Pure rules and mappings are functions. Component state that handlers update in place is a class whose fields the methods reassign. Loops the source runs are methods with loop invariants, proved against a specification function. Three modules are shared:
- `Common`: JavaScript's `undefined` as an `Option`, truthiness of numbers and strings, `split`/`join` on one character, first-occurrence `replace`, and decimal rendering of integers;
- `Storage`: storage locations;
- `WeightedMenu`: weighted item lists and the stable sort by weight.

Remote calls are inputs to the model. The project fetch (rejected, or resolved to a possibly empty list), the event catalogue, an analytics report and the organization id are parameters. Confirmation dialogs are an `Ok`/`Cancel` answer.

The model follows the code in these places:
- `JobForm.QuantityToFrames` rounds half up (`Math.round`), so 50% of a 7-frame task gives 4 frames, and `JobForm.FramesToQuantity` floors, so 4 frames convert back to 57%. `JobForm.SmallTaskDrifts` states this case.
- With a truthy project id, submit requests the project together with validation (`Promise.all`). The form is submitted when it is valid and the request resolves; an empty response still submits unless a "use the project's storage" toggle then reads the missing project. Without a truthy id no request is made, and `AdvancedConfiguration.SubmitIgnoresFetchWithoutProject` states that the fetch then plays no part.
- A project id of 0 is falsy, so it counts as "no project" wherever the code tests `projectId ?`.
- An event's category is the segment between its first and second `:` (`split(':')[1]`). An event without a colon has no category, and its pre-fill key is `event:undefined`.

## Model

| member | source | states |
|---|---|---|
| Common.IndexOf | cvat-ui/src/components/setup-webhook-pages/setup-webhook-content.tsx:56 | the index found holds the separator and no earlier position does |
| Common.IndexOfFirst | cvat-ui/src/components/setup-webhook-pages/setup-webhook-content.tsx:56 | any position holding the separator with none before it is the index found |
| Common.Split | cvat-ui/src/components/setup-webhook-pages/setup-webhook-content.tsx:56 | `split(c)` yields at least one part and no part contains the separator |
| Common.Segment | cvat-ui/src/components/setup-webhook-pages/setup-webhook-content.tsx:56 | `split(c)[i]` is undefined past the last part, and a part never contains the separator |
| Common.JoinSplit | cvat-ui/src/components/analytics-page/analytics-performance.tsx:94-96 | joining the parts of a split with the same separator gives the original string |
| Common.SplitJoin | cvat-ui/src/components/setup-webhook-pages/setup-webhook-content.tsx:56 | splitting a join of separator-free parts gives the parts back |
| Common.SegmentAfterPrefix | cvat-ui/src/components/setup-webhook-pages/setup-webhook-content.tsx:111 | the segment after `event:` of `event:<c>` is `c` when `c` has no colon |
| Common.SubstituteChar | cvat-ui/src/components/analytics-page/analytics-performance.tsx:94-96 | keeps the length and replaces exactly the positions holding `c` by `d` |
| Common.SplitJoinSubstitutes | cvat-ui/src/components/analytics-page/analytics-performance.tsx:94-96 | `split(c).join(d)` equals the character-wise substitution of `d` for every `c` |
| Common.ReplaceFirstAbsent | cvat-ui/src/components/analytics-page/analytics-performance.tsx:97-100 | `replace` with a pattern that does not occur leaves the string unchanged |
| Common.ReplaceFirstAt | cvat-ui/src/components/analytics-page/analytics-performance.tsx:97-100 | `replace` splices the replacement in at the first occurrence and nowhere else |
| Common.ReplaceFirstKeepsOut | cvat-ui/src/components/analytics-page/analytics-performance.tsx:97-100 | `replace` introduces no character absent from both the string and the replacement |
| Common.NatToDecimal | cvat-ui/src/components/job-item/job-actions-menu.tsx:53 | the rendering of a natural is non-empty, all digits, with no leading zero |
| Common.IntToDecimal | cvat-ui/src/components/job-item/job-actions-menu.tsx:53 | the rendering of an integer starts with '-' exactly for negatives and is otherwise digits |
| Common.ParseNatToDecimal | cvat-ui/src/components/job-item/job-actions-menu.tsx:53 | parsing the decimal rendering of n gives n back |
| Common.NatToDecimalInjective | cvat-ui/src/components/job-item/job-actions-menu.tsx:53 | distinct naturals render differently |
| Common.IntToDecimalInjective | cvat-ui/src/components/job-item/job-actions-menu.tsx:53 | distinct integers render differently |
| ValidationPatterns.LineTerminatorIsWhitespace | cvat-ui/src/utils/validation-patterns.ts:70 | every line terminator is matched by `\s` |
| ValidationPatterns.EncodeChar | cvat-ui/src/utils/validation-patterns.ts:70 | a character below U+10000 is one code unit equal to it; one above is a high and a low surrogate that decode back to it |
| ValidationPatterns.Utf16 | cvat-ui/src/utils/validation-patterns.ts:70 | a string of n characters is between n and 2n code units |
| ValidationPatterns.Utf16Append | cvat-ui/src/utils/validation-patterns.ts:70 | the code units of a concatenation are those of the parts, in order |
| ValidationPatterns.Utf16OfBmp | cvat-ui/src/utils/validation-patterns.ts:8 | below U+10000 the code units are the characters themselves, one each |
| ValidationPatterns.SurrogateIsOrdinary | cvat-ui/src/utils/validation-patterns.ts:70 | a surrogate code unit is neither whitespace nor a line terminator, and may start a URL host |
| ValidationPatterns.RunOfLengthOnOneLine | cvat-ui/src/utils/validation-patterns.ts:8 | on input without line terminators, `(?=.{n,})` holds iff the input has at least n code units |
| ValidationPatterns.PasswordLengthOk | cvat-ui/src/utils/validation-patterns.ts:8 | on one-line input the password-length pattern holds iff there are at least 8 code units |
| ValidationPatterns.UsernameLengthOk | cvat-ui/src/utils/validation-patterns.ts:28 | on one-line input the username-length pattern holds iff there are at least 5 code units |
| ValidationPatterns.AstralPasswordLength | cvat-ui/src/utils/validation-patterns.ts:8 | four emoji, four characters, pass the 8-unit length check because each is a surrogate pair |
| ValidationPatterns.LookaheadFindsIffContains | cvat-ui/src/utils/validation-patterns.ts:13 | `(?=.*[X])` holds iff the input contains a character of class X; this covers the digit, upper-case and lower-case patterns |
| ValidationPatterns.PasswordHasDigit | cvat-ui/src/utils/validation-patterns.ts:13 | holds iff some code unit is a digit 0-9 |
| ValidationPatterns.PasswordHasUpper | cvat-ui/src/utils/validation-patterns.ts:18 | holds iff some code unit is a letter A-Z |
| ValidationPatterns.PasswordHasLower | cvat-ui/src/utils/validation-patterns.ts:23 | holds iff some code unit is a letter a-z |
| ValidationPatterns.UsernameCharactersOk | cvat-ui/src/utils/validation-patterns.ts:33 | an accepted username is one line and also passes the username-length pattern |
| ValidationPatterns.HasNonWhitespace | cvat-ui/src/utils/validation-patterns.ts:53-66 | `\S+` needs a non-empty input, and holds on any non-empty input without whitespace |
| ValidationPatterns.OrganizationSlugOk | cvat-ui/src/utils/validation-patterns.ts:74-75 | an accepted slug has no whitespace and passes `\S+`; one of 5 or more code units also passes the username-characters pattern |
| ValidationPatterns.SchemeUnits | cvat-ui/src/utils/validation-patterns.ts:70 | `http://` and `https://` are the scheme code units the URL predicate compares against |
| ValidationPatterns.UrlPattern | cvat-ui/src/utils/validation-patterns.ts:70 | an accepted URL has at least 9 code units and starts with the `http://` or `https://` code units |
| ValidationPatterns.UrlPatternIsOneLine | cvat-ui/src/utils/validation-patterns.ts:70 | an accepted URL contains no line terminator |
| ValidationPatterns.UrlPatternExtends | cvat-ui/src/utils/validation-patterns.ts:70 | appending non-whitespace characters to an accepted URL keeps it accepted |
| ValidationPatterns.UrlPatternParts | cvat-ui/src/utils/validation-patterns.ts:70 | an accepted URL is the `http://` or `https://` code units, then a host-start code unit outside `\s$.?#`, then one that is not a line terminator, then no whitespace |
| ValidationPatterns.UrlPatternFromParts | cvat-ui/src/utils/validation-patterns.ts:70 | conversely, any code-unit sequence of that shape is accepted |
| ValidationPatterns.AstralHostAccepted | cvat-ui/src/utils/validation-patterns.ts:70 | `http://` followed by a single emoji is accepted: its two surrogates fill the host start and the following `.` |
| ValidationPatterns.LeadingPluses | cvat-ui/src/utils/validation-patterns.ts:80 | the count of leading '+' characters: all before it are '+', the one at it is not |
| ValidationPatterns.PhonePatternIff | cvat-ui/src/utils/validation-patterns.ts:80 | `PhonePattern` holds iff every code unit after the leading '+' run is a digit, whitespace or '-' |
| ValidationPatterns.PhonePatternAcceptsEmpty | cvat-ui/src/utils/validation-patterns.ts:80 | the empty string is an accepted phone number |
| AdvancedConfiguration.IsInteger | cvat-ui/src/components/create-task-page/advanced-configuration-form.tsx:95-117 | undefined or '' passes; a non-integer fails before any bound is checked; it passes iff integral and within the inclusive bounds; below-min and above-max failures name the violated bound |
| AdvancedConfiguration.ValidateOverlapSize | cvat-ui/src/components/create-task-page/advanced-configuration-form.tsx:119-132 | fails iff overlap and segment size are both present and `+segment <= +overlap` |
| AdvancedConfiguration.ValidateStopFrame | cvat-ui/src/components/create-task-page/advanced-configuration-form.tsx:134-147 | fails iff stop and start are both present and start > stop; equal values pass |
| AdvancedConfiguration.ValidateUrl | cvat-ui/src/components/create-task-page/advanced-configuration-form.tsx:87-93 | passes iff the URL is absent or empty, or the URL pattern accepts it |
| AdvancedConfiguration.FirstOf | cvat-ui/src/components/create-task-page/advanced-configuration-form.tsx:282 | a field with two rules has no error iff both rules pass |
| AdvancedConfiguration.ErrorOf | cvat-ui/src/components/create-task-page/advanced-configuration-form.tsx:293 | a field with one rule has no error iff the rule passes |
| AdvancedConfiguration.FieldError | cvat-ui/src/components/create-task-page/advanced-configuration-form.tsx:261-399 | each error is raised only by the field whose rule has it: required only by sorting method and quality, above-max only by quality at 100, below-min at 5 for quality, 1 for segment size, frame step and chunk size, 0 otherwise; the overlap, stop-frame and URL errors only on their fields |
| AdvancedConfiguration.FirstInvalid | cvat-ui/src/components/create-task-page/advanced-configuration-form.tsx:164 | finds nothing iff every field passes; otherwise reports a failing field with its own error, and every field before it passes |
| AdvancedConfiguration.FrameFilter | cvat-ui/src/components/create-task-page/advanced-configuration-form.tsx:167 | defined iff frameStep is present, and then is `step=` followed by its decimal value |
| AdvancedConfiguration.ResolveStorage | cvat-ui/src/components/create-task-page/advanced-configuration-form.tsx:175-180 | with the toggle off or no project, the form's storage; otherwise the project's storage, or local when the project has none |
| AdvancedConfiguration.KeptKeys | cvat-ui/src/components/create-task-page/advanced-configuration-form.tsx:168-170 | the entry filter never adds entries |
| AdvancedConfiguration.KeptKeysWithout | cvat-ui/src/components/create-task-page/advanced-configuration-form.tsx:168-170 | the filter keeps every key when the frame filter is not among the keys |
| AdvancedConfiguration.KeptKeysKeepsForm | cvat-ui/src/components/create-task-page/advanced-configuration-form.tsx:168-170 | no form key has the form `step=N`, so the filter removes nothing from the form's entries |
| AdvancedConfiguration.Submit | cvat-ui/src/components/create-task-page/advanced-configuration-form.tsx:157-205 | rejected with a field error iff some rule fails; a fetch failure is reported iff the form is valid and the fetch was rejected; the missing project is reported iff the fetch resolved empty and a project-storage toggle is on; a submitted configuration carries the form's values |
| AdvancedConfiguration.FieldRanges | cvat-ui/src/components/create-task-page/advanced-configuration-form.tsx:261-266 | image quality is required and accepts integers in 5..100; segment size, frame step and chunk size accept integers ≥ 1; start frame accepts integers ≥ 0 (wiring at lines 293, 302, 323 and 399) |
| AdvancedConfiguration.OverlapRule | cvat-ui/src/components/create-task-page/advanced-configuration-form.tsx:282 | with integral values, the overlap field passes iff 0 ≤ overlap < segment size |
| AdvancedConfiguration.StopFrameRule | cvat-ui/src/components/create-task-page/advanced-configuration-form.tsx:314 | with integral values and a valid start, the stop-frame field passes iff start ≤ stop |
| AdvancedConfiguration.InitialValuesValid | cvat-ui/src/components/create-task-page/advanced-configuration-form.tsx:54-71 | the initial form values pass every rule |
| AdvancedConfiguration.SubmitRejectsInvalid | cvat-ui/src/components/create-task-page/advanced-configuration-form.tsx:185-187 | a form failing any rule is not submitted; the reported field has the reported error and every field before it passes |
| AdvancedConfiguration.EqualOverlapRejected | cvat-ui/src/components/create-task-page/advanced-configuration-form.tsx:119-132 | an integral overlap equal to the segment size is rejected on the overlap field whenever sorting method and quality pass, whatever the fetch or the later fields |
| AdvancedConfiguration.SubmitWithProject | cvat-ui/src/components/create-task-page/advanced-configuration-form.tsx:161-181 | with a project, each storage is the project's own (or local when it has none) when its toggle is on, and the form's otherwise |
| AdvancedConfiguration.SubmitWithoutProject | cvat-ui/src/components/create-task-page/advanced-configuration-form.tsx:185-198 | without a truthy project id, both storages come from the form whatever the toggles say |
| AdvancedConfiguration.SubmitIgnoresFetchWithoutProject | cvat-ui/src/components/create-task-page/advanced-configuration-form.tsx:161-186 | with a falsy project id no request is made: any two fetch results give the same outcome |
| AdvancedConfiguration.SubmitReportsRejectedFetch | cvat-ui/src/components/create-task-page/advanced-configuration-form.tsx:161-165 | with a truthy project id, a valid form whose project request is rejected is not submitted and reports the rejection |
| AdvancedConfiguration.SubmitWithEmptyResponse | cvat-ui/src/components/create-task-page/advanced-configuration-form.tsx:166-180 | an empty project response submits the form's own storages when both toggles are off, and fails on the missing project when either is on |
| AdvancedConfiguration.SubmitFrameFilter | cvat-ui/src/components/create-task-page/advanced-configuration-form.tsx:167-174 | a submitted configuration carries `step=N`, N being the integral frame step ≥ 1, exactly when a frame step was given, and no frame filter otherwise |
| AdvancedConfiguration.AdvancedConfigurationForm.constructor | cvat-ui/src/components/create-task-page/advanced-configuration-form.tsx:152-155 | the form store starts at the initial values |
| AdvancedConfiguration.AdvancedConfigurationForm.ResetFields | cvat-ui/src/components/create-task-page/advanced-configuration-form.tsx:207-211 | the store returns to the initial values, which pass every rule |
| AdvancedConfiguration.AdvancedConfigurationForm.SubmitForm | cvat-ui/src/components/create-task-page/advanced-configuration-form.tsx:157-205 | the outcome is `Submit` of the store; submitted iff every rule passes and, with a truthy project id, the fetch resolved with a project or both toggles are off; the payload carries the store's values; a rejection names a failing field with its error |
| SetupWebhook.Category | cvat-ui/src/components/setup-webhook-pages/setup-webhook-content.tsx:56 | an event has a category iff it contains a colon, and the category never contains one |
| SetupWebhook.Dedup | cvat-ui/src/components/setup-webhook-pages/setup-webhook-content.tsx:55-57 | `Array.from(new Set(xs))` has the same members as xs, no duplicates, and is no longer than xs |
| SetupWebhook.DedupFirstSeenOrder | cvat-ui/src/components/setup-webhook-pages/setup-webhook-content.tsx:55-57 | the de-duplicated values appear in the order of their first occurrence |
| SetupWebhook.DistinctCount | cvat-ui/src/components/setup-webhook-pages/setup-webhook-content.tsx:96 | a duplicate-free sequence has as many elements as distinct values |
| SetupWebhook.GroupEvents | cvat-ui/src/components/setup-webhook-pages/setup-webhook-content.tsx:54-58 | holds exactly the categories of the events, each once, in the order of their first event, and is never longer than the input |
| SetupWebhook.GroupEventsCountsCategories | cvat-ui/src/components/setup-webhook-pages/setup-webhook-content.tsx:54-58 | the length of `groupEvents` is the number of distinct categories |
| SetupWebhook.FilterByCategory | cvat-ui/src/components/setup-webhook-pages/setup-webhook-content.tsx:64 | keeps exactly the events whose category is selected, with their multiplicities |
| SetupWebhook.FilterByCategoryAppend | cvat-ui/src/components/setup-webhook-pages/setup-webhook-content.tsx:64 | the filter keeps order: filtering a concatenation concatenates the filtered parts |
| SetupWebhook.SelectedCategories | cvat-ui/src/components/setup-webhook-pages/setup-webhook-content.tsx:62-63 | every category read back from a truthy `event:` key is defined |
| SetupWebhook.CollectEvents | cvat-ui/src/components/setup-webhook-pages/setup-webhook-content.tsx:60-65 | "send everything" returns the whole catalogue; "select individual" returns the catalogue filtered to the categories with a truthy `event:` key |
| SetupWebhook.EventKeyCategory | cvat-ui/src/components/setup-webhook-pages/setup-webhook-content.tsx:62-63 | the category named by the key `event:<c>` is c when c has no colon |
| SetupWebhook.CollectIgnoresOtherKeys | cvat-ui/src/components/setup-webhook-pages/setup-webhook-content.tsx:62 | changing a key that does not start with `event:` never changes the collected events |
| SetupWebhook.CollectNothingSelected | cvat-ui/src/components/setup-webhook-pages/setup-webhook-content.tsx:62-64 | with no truthy `event:` key, "select individual" collects nothing |
| SetupWebhook.CategoryText | cvat-ui/src/components/setup-webhook-pages/setup-webhook-content.tsx:111 | the template text of `event.split(':')[1]` is the category when there is one and "undefined" otherwise, never with a colon |
| SetupWebhook.InferEventsMethod | cvat-ui/src/components/setup-webhook-pages/setup-webhook-content.tsx:96-98 | "send everything" iff the catalogue and the webhook's events have equally many distinct categories |
| SetupWebhook.Webhook.constructor | cvat-ui/src/components/setup-webhook-pages/setup-webhook-content.tsx:127-133 | a webhook holds its source type and events |
| SetupWebhook.BaseKeysAreNotEventKeys | cvat-ui/src/components/setup-webhook-pages/setup-webhook-content.tsx:100-109 | none of the fixed form keys starts with `event:` |
| SetupWebhook.EventFlags | cvat-ui/src/components/setup-webhook-pages/setup-webhook-content.tsx:110-112 | the flags have one `event:<category>` key per webhook event category, each set to true |
| SetupWebhook.BaseData | cvat-ui/src/components/setup-webhook-pages/setup-webhook-content.tsx:100-109 | the record has the eight fixed keys with the webhook's values and the inferred method |
| SetupWebhook.PrefillData | cvat-ui/src/components/setup-webhook-pages/setup-webhook-content.tsx:100-112 | the loop over the webhook's events builds the fixed record plus one true flag per category |
| SetupWebhook.EventFlagsStep | cvat-ui/src/components/setup-webhook-pages/setup-webhook-content.tsx:110-112 | one loop step adds exactly the key of the next event's category |
| SetupWebhook.BaseAndFlagsDisjoint | cvat-ui/src/components/setup-webhook-pages/setup-webhook-content.tsx:100-112 | the flag keys never overwrite a fixed key |
| SetupWebhook.PrefillDataFacts | cvat-ui/src/components/setup-webhook-pages/setup-webhook-content.tsx:100-112 | the pre-fill keeps every fixed value, including the method, and sets every flag key to true |
| SetupWebhook.PrefillSelects | cvat-ui/src/components/setup-webhook-pages/setup-webhook-content.tsx:110-112 | the categories selected by the pre-fill (read back as at line 62) are exactly those of the webhook's events |
| SetupWebhook.PrefillRoundTrip | cvat-ui/src/components/setup-webhook-pages/setup-webhook-content.tsx:60-65 | collecting "select individual" over the pre-fill returns exactly the catalogue events whose category the webhook already had (pre-fill at lines 110-112) |
| SetupWebhook.CatalogueType | cvat-ui/src/components/setup-webhook-pages/setup-webhook-content.tsx:80-92 | when editing, the catalogue is requested for the webhook's type; otherwise for Project iff the project id is truthy |
| SetupWebhook.NewWebhookData | cvat-ui/src/components/setup-webhook-pages/setup-webhook-content.tsx:136-150 | built iff the required fields are filled and there is a project or an organization; type Project without an organization id when the project id is truthy, Organization with the current organization otherwise; events are the collected events (required rules at lines 191-196, 226, 262-265) |
| SetupWebhook.SetupWebhookContent.constructor | cvat-ui/src/components/setup-webhook-pages/setup-webhook-content.tsx:179-184 | the store starts at the initial values, with no catalogue and the detailed events hidden |
| SetupWebhook.SetupWebhookContent.OnCatalogueLoaded | cvat-ui/src/components/setup-webhook-pages/setup-webhook-content.tsx:83-90 | the loaded catalogue replaces the event list and nothing else changes |
| SetupWebhook.SetupWebhookContent.OnProjectSelect | cvat-ui/src/components/setup-webhook-pages/setup-webhook-content.tsx:80-92 | selecting a project sets only the project id |
| SetupWebhook.SetupWebhookContent.EditEffect | cvat-ui/src/components/setup-webhook-pages/setup-webhook-content.tsx:94-117 | the store becomes the old store overwritten by the fixed fields of the webhook, the inferred method and one true flag per category; the detailed events show iff the method is "select individual"; other store entries, the catalogue and the project id are kept |
| SetupWebhook.SetupWebhookContent.OnEventsMethodChange | cvat-ui/src/components/setup-webhook-pages/setup-webhook-content.tsx:164-168 | stores the method and shows the detailed events iff it is "select individual" |
| SetupWebhook.SetupWebhookContent.HandleSubmitNew | cvat-ui/src/components/setup-webhook-pages/setup-webhook-content.tsx:136-153 | returns the new-webhook payload of the submitted store; on success resets the store and hides the detailed events, on failure changes nothing |
| SetupWebhook.SetupWebhookContent.HandleSubmitEdit | cvat-ui/src/components/setup-webhook-pages/setup-webhook-content.tsx:119-135 | updates iff the required fields are filled; then copies the form fields and the collected events into the webhook and resets the store; otherwise changes nothing |
| JobForm.QuantityToFrames | cvat-ui/src/components/create-job-page/job-form.tsx:84-91 | the frame count is the nearest integer to value·taskSize/100, halves rounded up |
| JobForm.FramesToQuantity | cvat-ui/src/components/create-job-page/job-form.tsx:93-100 | the percentage is the floor of count·100/taskSize |
| JobForm.InitialFrameCount | cvat-ui/src/components/create-job-page/job-form.tsx:109-114 | the initial frame count is the floor of 5·taskSize/100 |
| JobForm.InitialFrameCountVsHandler | cvat-ui/src/components/create-job-page/job-form.tsx:113 | the initial count is the handler's value for 5% (line 86) or one less |
| JobForm.InitialFrameCountDiffers | cvat-ui/src/components/create-job-page/job-form.tsx:113 | for a 10-frame task the initial count is 0 while the handler gives 1 |
| JobForm.QuantityRoundTripExact | cvat-ui/src/components/create-job-page/job-form.tsx:84-100 | when value·taskSize is a multiple of 100, percentage → frames → percentage is the identity |
| JobForm.QuantityRoundTripWithinOne | cvat-ui/src/components/create-job-page/job-form.tsx:84-100 | for tasks over 50 frames, percentage → frames → percentage loses at most one point |
| JobForm.SmallTaskDrifts | cvat-ui/src/components/create-job-page/job-form.tsx:84-100 | 50% of a 7-frame task gives 4 frames, which converts back to 57% |
| JobForm.FramesRoundTrip | cvat-ui/src/components/create-job-page/job-form.tsx:84-100 | frames → percentage → frames never grows, and loses at most one frame for tasks of at most 100 frames |
| JobForm.QuantityToFramesBounds | cvat-ui/src/components/create-job-page/job-form.tsx:165-166 | a percentage in 1..100 gives a frame count in 0..taskSize |
| JobForm.FramesToQuantityBounds | cvat-ui/src/components/create-job-page/job-form.tsx:192-193 | a count in 1..taskSize gives a percentage in 0..100, and 0 exactly when 100·count < taskSize |
| JobForm.JobFormState.constructor | cvat-ui/src/components/create-job-page/job-form.tsx:109-114 | starts as a ground-truth job, random selection, 5% and the floor-based frame count |
| JobForm.JobFormState.OnQuantityChange | cvat-ui/src/components/create-job-page/job-form.tsx:84-91 | a truthy percentage sets the rounded frame count; null or 0 changes nothing; no other field changes |
| JobForm.JobFormState.OnFrameCountChange | cvat-ui/src/components/create-job-page/job-form.tsx:93-100 | a truthy count sets the floored percentage; null or 0 changes nothing; no other field changes |
| JobForm.JobFormState.EnterQuantity | cvat-ui/src/components/create-job-page/job-form.tsx:163-168 | typing a percentage stores it and updates only the frame count, through the handler |
| JobForm.JobFormState.EnterFrameCount | cvat-ui/src/components/create-job-page/job-form.tsx:190-195 | typing a count stores it and updates only the percentage, through the handler |
| JobForm.JobFormState.Submit | cvat-ui/src/components/create-job-page/job-form.tsx:59-75 | a payload iff every required field is set (rules at lines 120, 134, 161, 188); it carries the form's method, type, seed and count and the task's id, and not the percentage |
| ExportDataset.DefaultFormat | cvat-ui/src/components/export-dataset/export-dataset-modal.tsx:63-78 | tasks and jobs with 2d data get "CVAT for video 1.1" in interpolation mode and "CVAT for images 1.1" in annotation mode; projects and other cases get none |
| ExportDataset.ListedDumpers | cvat-ui/src/components/export-dataset/export-dataset-modal.tsx:155-158 | a dumper is listed (`Listed`) iff its dimension equals the instance's, or the instance is a project with null dimension |
| ExportDataset.NoInstanceNoDumpers | cvat-ui/src/components/export-dataset/export-dataset-modal.tsx:155-158 | without an instance no dumper is listed |
| ExportDataset.DumperDisabled | cvat-ui/src/components/export-dataset/export-dataset-modal.tsx:161-163 | disabled iff not enabled or its name is among the pending exports |
| ExportDataset.ExportStorage | cvat-ui/src/components/export-dataset/export-dataset-modal.tsx:109-112 | with the default toggle on, the instance's location and cloud id; otherwise the chosen storage |
| ExportDataset.FileName | cvat-ui/src/components/export-dataset/export-dataset-modal.tsx:113 | defined iff the custom name is non-empty, and then is the name followed by ".zip" |
| ExportDataset.FileNameStripsBack | cvat-ui/src/components/export-dataset/export-dataset-modal.tsx:113 | dropping the ".zip" suffix gives the custom name back |
| ExportDataset.FileNameInjective | cvat-ui/src/components/export-dataset/export-dataset-modal.tsx:113 | distinct custom names give distinct file names |
| ExportDataset.LocationLabelIsSplitReplace | cvat-ui/src/components/export-dataset/export-dataset-modal.tsx:89 | `LocationLabel` is the part before `_`, with "local" replaced by 本地 |
| ExportDataset.CloudIdText | cvat-ui/src/components/export-dataset/export-dataset-modal.tsx:90 | the id text is empty iff the cloud id is not truthy |
| ExportDataset.HelpMessageNamesId | cvat-ui/src/components/export-dataset/export-dataset-modal.tsx:87-91 | `HelpMessage` ends in a space iff there is no truthy cloud id, and different truthy ids give different texts |
| ExportDataset.ExportDatasetModal.constructor | cvat-ui/src/components/export-dataset/export-dataset-modal.tsx:33-60 | the dialog starts with the default toggle on, local storage and the initial form |
| ExportDataset.ExportDatasetModal.OnInstanceChange | cvat-ui/src/components/export-dataset/export-dataset-modal.tsx:63-85 | applies the default format when there is one, copies the instance's target storage into the defaults, and keeps the help text in step |
| ExportDataset.ExportDatasetModal.OnChangeUseDefaultStorage | cvat-ui/src/components/export-dataset/export-dataset-modal.tsx:205 | sets only the toggle |
| ExportDataset.ExportDatasetModal.OnChangeStorage | cvat-ui/src/components/export-dataset/export-dataset-modal.tsx:206 | sets only the chosen storage |
| ExportDataset.ExportDatasetModal.OnChangeLocationValue | cvat-ui/src/components/export-dataset/export-dataset-modal.tsx:207-209 | the chosen storage becomes the location alone, dropping any cloud id |
| ExportDataset.ExportDatasetModal.CloseModal | cvat-ui/src/components/export-dataset/export-dataset-modal.tsx:93-98 | resets the toggle to on, the storage to local and the form to its initial values, and dispatches `closeExportDatasetModal` for the instance |
| ExportDataset.ExportDatasetModal.HandleExport | cvat-ui/src/components/export-dataset/export-dataset-modal.tsx:100-127 | dispatches iff a format is selected (required rule, line 150): first the export request, carrying the instance, format, images flag, effective storage and file name, then the close action; with no format nothing changes |
| JobActionsMenu.Job.constructor | cvat-ui/src/components/job-item/job-actions-menu.tsx:28 | a job holds its ids, bug tracker, type, stage and state |
| JobActionsMenu.MenuItems | cvat-ui/src/components/job-item/job-actions-menu.tsx:75-92 | eight items with distinct keys: task, project and bug tracker (disabled iff missing), then import, export and analytics (enabled), then "finish" in annotation or validation and "renew" in acceptance, then delete, disabled unless ground truth |
| JobActionsMenu.FinishRenewExclusive | cvat-ui/src/components/job-item/job-actions-menu.tsx:81-84 | exactly one of "finish" and "renew" is offered, and each transition leads to a stage that offers the other |
| JobActionsMenu.IdText | cvat-ui/src/components/job-item/job-actions-menu.tsx:53-55 | the template text of an id is "null" exactly when the id is null |
| JobActionsMenu.IdTextInjective | cvat-ui/src/components/job-item/job-actions-menu.tsx:53-55 | different ids give different path texts |
| JobActionsMenu.OnClick | cvat-ui/src/components/job-item/job-actions-menu.tsx:51-73 | finish sets acceptance/completed and renew sets annotation/new, then the job is updated; navigation keys go to the task, project and analytics paths; delete asks for confirmation; other keys leave the job unchanged |
| JobActionsMenu.OnlyTransitionsChangeJob | cvat-ui/src/components/job-item/job-actions-menu.tsx:51-63 | only finish and renew change the stage or state |
| JobActionsMenu.RenewUndoesFinish | cvat-ui/src/components/job-item/job-actions-menu.tsx:64-71 | renew after finish gives annotation/new, and finish after renew gives acceptance/completed |
| Common.ConfirmedRequest | cvat-ui/src/components/job-item/job-actions-menu.tsx:32-46 | the request in a confirmation's `onOk` (deleting the job here; deleting the project at projects-page/actions-menu.tsx:32-47 works the same way) is made iff the answer is OK, and it is that request |
| TaskActionsMenu.BuiltInItems | cvat-ui/src/components/actions-menu/actions-menu.tsx:81-131 | the pushes come in ascending weight, none heavier than 70, and delete is last at weight 70 |
| TaskActionsMenu.BugTrackerItemIff | cvat-ui/src/components/actions-menu/actions-menu.tsx:90-94 | the bug-tracker item is present iff the bug tracker is non-empty |
| TaskActionsMenu.MoveItemIff | cvat-ui/src/components/actions-menu/actions-menu.tsx:120-124 | the move-to-project item is present iff the task has no project |
| TaskActionsMenu.ToggledItemsPresent | cvat-ui/src/components/actions-menu/actions-menu.tsx:96-110 | auto-annotation is always present, disabled iff inference is active; backup likewise with the backup flag |
| WeightedMenu.PluginItems | cvat-ui/src/components/actions-menu/actions-menu.tsx:133-138 | one item per plugin, with the plugin's index and weight (the project menu pushes them the same way at projects-page/actions-menu.tsx:116-121) |
| TaskActionsMenu.PushBuiltIns | cvat-ui/src/components/actions-menu/actions-menu.tsx:81-131 | the successive pushes build exactly the built-in list |
| TaskActionsMenu.AssembleMenu | cvat-ui/src/components/actions-menu/actions-menu.tsx:81-143 | the menu is sorted by weight, is a permutation of built-ins plus plugins, keeps push order among equal weights, and without plugins equals the built-ins |
| WeightedMenu.BuiltInsBeforePluginsOnTies | cvat-ui/src/components/actions-menu/actions-menu.tsx:133-142 | among items of equal weight, built-ins precede plugins |
| WeightedMenu.ItemsOfWeightAppend | cvat-ui/src/components/actions-menu/actions-menu.tsx:133-138 | the items of one weight in a concatenation are those of each part in order |
| TaskActionsMenu.ForwardedClicks | cvat-ui/src/components/actions-menu/actions-menu.tsx:53-79 | a falsy click forwards nothing; delete is forwarded once iff confirmed; every other key is forwarded once immediately |
| TaskActionsMenu.OnlyDeleteAwaitsConfirmation | cvat-ui/src/components/actions-menu/actions-menu.tsx:59-76 | the confirmation answer matters for delete and for no other key |
| ProjectActionsMenu.BuiltInItems | cvat-ui/src/components/projects-page/actions-menu.tsx:49-114 | export dataset (0), import dataset (10), backup (20), analytics (30), webhooks (40) and delete (50), in push order; only backup can be disabled, exactly when a backup is active (lines 28-30, 65) |
| ProjectActionsMenu.PushBuiltIns | cvat-ui/src/components/projects-page/actions-menu.tsx:49-114 | the successive pushes build exactly the built-in list |
| ProjectActionsMenu.AssembleMenu | cvat-ui/src/components/projects-page/actions-menu.tsx:49-126 | the menu is sorted by weight, is a permutation of built-ins plus plugins, keeps push order among equal weights, and without plugins equals the built-ins |
| ProjectActionsMenu.ItemEffect | cvat-ui/src/components/projects-page/actions-menu.tsx:51-112 | export and import open their dataset dialogs, and only they; analytics and webhooks navigate to the project's paths; backup opens its dialog iff no backup is active; only delete asks for confirmation |
| ProjectActionsMenu.NavigationNamesProject | cvat-ui/src/components/projects-page/actions-menu.tsx:76-81 | different projects navigate to different analytics paths |
| WeightedMenu.InsertByWeightSorted | cvat-ui/src/components/actions-menu/actions-menu.tsx:142 | inserting into a sorted list keeps it sorted and adds exactly the new item |
| WeightedMenu.InsertByWeightMultiset | cvat-ui/src/components/actions-menu/actions-menu.tsx:142 | insertion adds exactly one occurrence of the new item |
| WeightedMenu.InsertByWeightItems | cvat-ui/src/components/actions-menu/actions-menu.tsx:142 | the inserted item comes after every item of its own weight |
| WeightedMenu.SortByWeight | cvat-ui/src/components/actions-menu/actions-menu.tsx:142 | the sorted menu is in ascending weight and holds exactly the pushed items |
| WeightedMenu.SortByWeightStable | cvat-ui/src/components/actions-menu/actions-menu.tsx:142 | items of equal weight keep their push order |
| WeightedMenu.SortByWeightOfSorted | cvat-ui/src/components/projects-page/actions-menu.tsx:125 | a list pushed in weight order comes out unchanged |
| AnalyticsPerformance.SumAppend | cvat-ui/src/components/analytics-page/analytics-performance.tsx:109 | the sum of a concatenation is the sum of the parts |
| AnalyticsPerformance.PointNumber | cvat-ui/src/components/analytics-page/analytics-performance.tsx:103-113 | a number maps to itself, a one-field object to its field, an empty object or other value to 0 |
| AnalyticsPerformance.PointNumberSplits | cvat-ui/src/components/analytics-page/analytics-performance.tsx:109 | an object's value is additive over its fields |
| AnalyticsPerformance.SeriesData | cvat-ui/src/components/analytics-page/analytics-performance.tsx:103-113 | one number per point, each the point's value |
| AnalyticsPerformance.SeriesLabelHasNoUnderscore | cvat-ui/src/components/analytics-page/analytics-performance.tsx:94-100 | a label built by `SeriesLabel` contains no underscore |
| AnalyticsPerformance.CardTitleKeepsOtherTitles | cvat-ui/src/components/analytics-page/analytics-performance.tsx:70-73 | `CardTitle` leaves a title containing none of the three English phrases unchanged |
| AnalyticsPerformance.CardTitleTranslatesTime | cvat-ui/src/components/analytics-page/analytics-performance.tsx:71 | the annotation-time title is shown as 注释时间（小时） |
| AnalyticsPerformance.CardTitleTranslatesObjectCount | cvat-ui/src/components/analytics-page/analytics-performance.tsx:72 | the object-count title is shown as 对象总数 |
| AnalyticsPerformance.CardTitleTranslatesSpeed | cvat-ui/src/components/analytics-page/analytics-performance.tsx:73 | the annotation-speed title is shown as 总注释速度（对象/小时）, the two earlier replacements not matching in it |
| AnalyticsPerformance.ChartTitle | cvat-ui/src/components/analytics-page/analytics-performance.tsx:135-137 | the histogram title is defined iff the entry has one |
| AnalyticsPerformance.CardValue | cvat-ui/src/components/analytics-page/analytics-performance.tsx:66-76 | the card shows the first point's value when it is a number, and 0 otherwise |
| AnalyticsPerformance.DatasetsFor | cvat-ui/src/components/analytics-page/analytics-performance.tsx:93-121 | one dataset per series, the j-th coloured `colors[j mod 5]`, with that series' label and values |
| AnalyticsPerformance.DatasetColoursCycle | cvat-ui/src/components/analytics-page/analytics-performance.tsx:92-115 | colours repeat every five series |
| AnalyticsPerformance.DatasetsForStep | cvat-ui/src/components/analytics-page/analytics-performance.tsx:93-121 | one more series adds exactly one dataset at the end |
| AnalyticsPerformance.BuildDatasets | cvat-ui/src/components/analytics-page/analytics-performance.tsx:92-121 | the colour-index loop builds exactly the cyclically coloured datasets |
| AnalyticsPerformance.LayoutFor | cvat-ui/src/components/analytics-page/analytics-performance.tsx:57-65 | one item per shown entry, named after it, 2 wide and 1 high; numeric entries at x 2 and histograms at x 0 (lines 122-129) |
| AnalyticsPerformance.CountOfKindShown | cvat-ui/src/components/analytics-page/analytics-performance.tsx:56-129 | hiding entries of other views does not change the number of numeric or histogram entries |
| AnalyticsPerformance.LayoutRowIsRank | cvat-ui/src/components/analytics-page/analytics-performance.tsx:58-65 | the k-th layout item sits at the row given by the number of shown entries of its kind before it, as the numeric and histogram counters (lines 122-129) count |
| AnalyticsPerformance.ViewOf | cvat-ui/src/components/analytics-page/analytics-performance.tsx:130-142 | a view is keyed by its entry's name (also line 81) |
| AnalyticsPerformance.ViewsFor | cvat-ui/src/components/analytics-page/analytics-performance.tsx:48-152 | one view per numeric or histogram entry, in entry order, keyed by name |
| AnalyticsPerformance.LayoutRowsBelowCount | cvat-ui/src/components/analytics-page/analytics-performance.tsx:58-129 | each row index is below the number of entries of its kind |
| AnalyticsPerformance.LayoutNoOverlap | cvat-ui/src/components/analytics-page/analytics-performance.tsx:58-128 | no two layout items share a column and row |
| AnalyticsPerformance.BuildOverview | cvat-ui/src/components/analytics-page/analytics-performance.tsx:43-152 | no report gives nothing; otherwise the counting loop builds exactly the specified layout and views |
| AnalyticsPerformance.LayoutMatchesViews | cvat-ui/src/components/analytics-page/analytics-performance.tsx:48-152 | layout and views have equal length and the same keys in order |
| DrawShapePopover.Clamp | cvat-ui/src/components/annotation-page/standard-workspace/controls-side-bar/draw-shape-popover.tsx:141 | with lo ≤ hi the result lies within the bounds: values inside are kept, values below become lo and values above become hi; with hi < lo the result is hi |
| DrawShapePopover.NormalisePoints | cvat-ui/src/components/annotation-page/standard-workspace/controls-side-bar/draw-shape-popover.tsx:141 | the count lies in minimumPoints..MAX_SAFE_INTEGER, and is the floor of any input within that range |
| DrawShapePopover.OnPointsChange | cvat-ui/src/components/annotation-page/standard-workspace/controls-side-bar/draw-shape-popover.tsx:137-143 | a missing input reports undefined, NaN stays NaN, and a number is normalised |
| DrawShapePopover.NormaliseIdempotent | cvat-ui/src/components/annotation-page/standard-workspace/controls-side-bar/draw-shape-popover.tsx:141 | normalising a normalised count changes nothing |
| DrawShapePopover.NormaliseKeepsValidCounts | cvat-ui/src/components/annotation-page/standard-workspace/controls-side-bar/draw-shape-popover.tsx:141 | an integer count already in range is kept |
| DrawShapePopover.NormaliseMonotone | cvat-ui/src/components/annotation-page/standard-workspace/controls-side-bar/draw-shape-popover.tsx:141 | a larger input never gives a smaller count |
| DrawShapePopover.Controls | cvat-ui/src/components/annotation-page/standard-workspace/controls-side-bar/draw-shape-popover.tsx:57-158 | rectangle method iff 2D rectangle (line 80), cuboid method iff 2D cuboid (line 105), points input iff 2D polygon, polyline or points (line 130), track button iff not a mask (line 158) |
| DrawShapePopover.AtMostOneDrawingOption | cvat-ui/src/components/annotation-page/standard-workspace/controls-side-bar/draw-shape-popover.tsx:80-130 | no two of the rectangle method, cuboid method and points input show together, and none shows for 3D |

## Left out

- Rendering, layout widgets, notifications, and the Redux `connect`/`dispatch` plumbing are not modelled. The export dialog's dispatched actions and the menus' `history.push` targets appear as returned effects; the other dispatches are left out.
- Remote calls are inputs: the project fetch, the webhook event catalogue, and the create/update/export/delete requests. A rejected project fetch is an outcome of submit; the other requests' failures are not modelled, among them a failed webhook update after the fields were assigned.
- AdvancedConfiguration.Submit: when both the fetch and validation fail, `Promise.all` reports whichever settles first. The model always reports the validation failure.
- AdvancedConfiguration.Submit: `validateFields` rejects with every failing field. The model reports the first failing field in form order.
- AdvancedConfiguration.AdvancedConfigurationForm.SubmitForm: the rejection when the form reference is empty is not modelled, because the form always exists in the model.
- AdvancedConfiguration: the IEEE-754 number coercion `+value` is modelled on exact reals plus a NaN case. Infinity and the textual forms of numbers are not modelled.
- ValidationPatterns: `validateName` uses Unicode property classes, which are not modelled.
- ValidationPatterns: the `/g` flag on the phone pattern makes `.test()` depend on `lastIndex`. The pattern is modelled as a pure predicate.
- JobForm.FramesToQuantity: the exact floor of count·100/taskSize is modelled. The source computes `(count / taskSize) * 100` in doubles, which can differ (29/100·100 floors to 28).
- JobForm.FramesToQuantity: a task size of 0 is excluded. The frame-count handler divides by the task size, which would give Infinity or NaN. The percentage handler divides by 100 and is modelled for every task size.
- JobForm: the widget bounds `min`/`max` on the two inputs are not validation rules. The model does not reject values outside them.
- JobForm: the form's input values are modelled as integers.
- ExportDataset: dumpers are sorted by `localeCompare` before filtering. The model filters them in the order given.
- ExportDataset: the instance-type text and its notification are not modelled.
- ExportDataset: choosing a format, a file name or the save-images flag is form input, not a method of the dialog. The selected format is not checked against the listed or disabled dumpers, and neither is the preset default format.
- ExportDataset.HelpMessageNamesId: the branch for a falsy default location is not modelled, because the location always holds a storage location here.
- SetupWebhook: `handleSubmit`'s returned value and the `rerender` toggle are not modelled.
- SetupWebhook: `Object.entries` order is modelled as the order of a sequence.
- AnalyticsPerformance: values are integers. `toFixed(1)` and floating-point sums are not modelled.
- AnalyticsPerformance: date labels (moment formatting) are not modelled.
- AnalyticsPerformance.BuildOverview: entries are required to have the series a numeric or histogram view reads. The source throws on such entries.
- AnalyticsPerformance: a point whose value is `null` makes `Object.keys` throw. That case is not modelled.
- DrawShapePopover.Clamp: `clamp` from `utils/math` is not part of this model. It is taken to be min(max(v, lo), hi).
- The remaining components of the UI hold no logic beyond presentation and are not part of this model.
