# Age-verification app: admin screens and their actions, in Dafny

This project models the behavioural core of a Shopify age-verification app's admin side:

- the customer list (`app/routes/customers.jsx`): saved-view tabs, the four filter fields, the removable filter chips built from them, the toolbar's primary action, and the badge and buttons a row gets from its status;
- the email-template settings screen (`app/routes/emailsetting.jsx`): the default templates, loading stored rows, editing a field, the save payload, the toast and the drop zone;
- the template save action (`app/routes/_index/api.email-settings.jsx`): one upsert per posted template, keyed by type;
- the configuration save action (`app/routes/api.config.js`): the posted form parsed into a configuration record and upserted at the fixed id 1;
- the customer-details submission action (`app/routes/api.verify.jsx`): six required fields, a 400 when any is missing, one insert otherwise;
- the two setup wizard steps (`app/routes/setup.jsx`, `app/routes/setup2.jsx`): their state, summaries, the forms they post and what they do with the reply.

Each route file is one module:

- `Customers`, `EmailSetting`, `EmailSettingsApi`, `ConfigApi`, `VerifyApi`, `Setup` and `Setup2`.
- `Templates` holds the template-table schema shared by the settings screen and its action.
- `Js` holds the JavaScript semantics the code relies on: truthiness, property access, `join`, `replace` with a global one-character pattern, `parseInt`, `toString` of booleans and `FormData.get`.
- `Wrappers` holds `Option`.

React state and database tables are classes whose methods update their fields. The logic those methods run is given by functions, and the functions' properties are proved as lemmas.

Things outside the program become parameters:

- Database failures: `failAt` gives the first upsert that fails, `storeFails` says whether the configuration upsert fails, and `storeError` gives the message of a failed insert.
- The clock: `now`.
- The parsed request body, or the error parsing it threw.
- The parsed reply a page receives, `None` when fetching or parsing throws.

## Model

| member | source | states |
|---|---|---|
| Customers.IsEmpty | app/routes/customers.jsx:507-513 | an array is empty iff it has no elements; any other value iff it is `''`, `null` or `undefined` |
| Customers.IsEmptyVersusFalsy | app/routes/customers.jsx:507-513 | `isEmpty` agrees with falsiness on strings and nullish values; an empty array is empty yet truthy; numbers, booleans and objects are never empty |
| Customers.StatusParts | app/routes/customers.jsx:500-501 | one `Status v` part per selected status, in order |
| Customers.DisambiguateLabel | app/routes/customers.jsx:494-505 | status label is empty iff no status, and is `Status v` for one; age label starts with the fixed prefix (its full shape is stated by AgeLabelReadsBack); tag label is the prefix followed by exactly the tag; the query key's label is the value itself |
| Customers.StatusLabelSnoc | app/routes/customers.jsx:500-501 | one more selected status appends `, Status v` to the label |
| Customers.AgeLabelReadsBack | app/routes/customers.jsx:496-497 | the label is the fixed prefix, the lower bound's rendering, " and ", and the upper bound's rendering, ending there; both bounds are recovered from it by `parseInt` at their positions |
| Customers.ValueOf | app/routes/customers.jsx:256-277 | each key reads a value of its own kind from the filter fields |
| Customers.ChipFor | app/routes/customers.jsx:256-277 | at most one chip per key, present iff that key's guard holds, carrying its key and label |
| Customers.AppliedFiltersOf | app/routes/customers.jsx:256-277 | status chip iff a non-empty status list; age chip iff a range is set; tag chip iff a non-empty tag; never a query chip; keys in the order status, age, tag; each text is the key's label |
| Customers.NoChipsIff | app/routes/customers.jsx:256-277 | no chips iff no status is selected, no range is set and the tag is empty |
| Customers.RemoveFilter | app/routes/customers.jsx:181-190 | each remove handler resets its own field to `undefined` or `''` and nothing else |
| Customers.ClearAll | app/routes/customers.jsx:192-202 | clearing all restores the initial filters and leaves no chips |
| Customers.WithoutKey | app/routes/customers.jsx:256-277 | keeps exactly the chips of other keys |
| Customers.WithoutKeyConcat | app/routes/customers.jsx:256-277 | dropping a key's chips distributes over concatenation |
| Customers.RemoveDropsOnlyItsChip | app/routes/customers.jsx:181-190 | removing a filter drops exactly its chip and keeps the other chips in order |
| Customers.RemoveKeepsOtherChip | app/routes/customers.jsx:181-190 | removing one filter leaves each other key's chip unchanged |
| Customers.TabsOf | app/routes/customers.jsx:68-113 | one tab per view name; only the first is locked; a tab has no actions iff it is the first; every other tab offers rename, duplicate, edit and delete |
| Customers.Spliced | app/routes/customers.jsx:54-57 | `splice(index, 1)` on a copy: the element at `index` is removed and the rest keep their order; an index past the end changes nothing |
| Customers.DeleteUndoesAppend | app/routes/customers.jsx:54-66 | deleting a just-appended view restores the previous list |
| Customers.PrimaryActionFor | app/routes/customers.jsx:145-158 | "save as" iff the first tab is selected |
| Customers.BadgeProgress | app/routes/customers.jsx:365-375 | complete iff Approved, partially complete iff Pending, incomplete otherwise |
| Customers.RowButtons | app/routes/customers.jsx:379-400 | Download PDF always; Review iff Pending; Resend iff Rejected; in that order |
| Customers.RowMarkup | app/routes/customers.jsx:335-404 | one row per loaded record, in load order, with the badge and buttons of its status |
| Customers.CustomerList.constructor | app/routes/customers.jsx:47-52 | initial views All, Approved, Pending, Rejected; first tab selected; sort "customer asc"; no filters |
| Customers.CustomerList.DeleteView | app/routes/customers.jsx:54-59 | the view is spliced out and the first tab selected; the first tab stays "All" |
| Customers.CustomerList.DuplicateView | app/routes/customers.jsx:61-66 | the name is appended and becomes the selected tab |
| Customers.CustomerList.OnCreateNewView | app/routes/customers.jsx:117-122 | the name is appended and becomes the selected tab |
| Customers.CustomerList.OnSelect | app/routes/customers.jsx:458-459 | the chosen tab becomes selected; nothing else changes |
| Customers.CustomerList.OnSort | app/routes/customers.jsx:135 | the sort choice is stored; nothing else changes |
| Customers.CustomerList.HandleStatusFilterChange | app/routes/customers.jsx:165-168 | sets only the status filter |
| Customers.CustomerList.HandleAgeRangeChange | app/routes/customers.jsx:169-172 | sets only the age range |
| Customers.CustomerList.HandleTaggedWithChange | app/routes/customers.jsx:173-176 | sets only the tag |
| Customers.CustomerList.HandleFiltersQueryChange | app/routes/customers.jsx:177-180 | sets only the query |
| Customers.CustomerList.HandleRemove | app/routes/customers.jsx:181-190 | the filters become `RemoveFilter` of the old ones; views, selection and sort unchanged |
| Customers.CustomerList.HandleFiltersClearAll | app/routes/customers.jsx:192-202 | the filters become `ClearAll` of the old ones |
| Customers.CustomerList.AppliedFilters | app/routes/customers.jsx:256-277 | the list built by successive pushes equals `AppliedFiltersOf` the current filters |
| Customers.CustomerList.PrimaryAction | app/routes/customers.jsx:145-158 | "save as" iff the first tab is selected |
| Templates.TemplateTypesDistinct | app/routes/emailsetting.jsx:253 | the four template types are pairwise different |
| Templates.FieldName | app/routes/_index/api.email-settings.jsx:24-31 | no column name is `type`, so spreading a record never overwrites the type |
| Templates.FieldByNameOfFieldName | app/routes/_index/api.email-settings.jsx:24-31 | each column is found again from its name |
| Templates.ColumnsExtensional | app/routes/_index/api.email-settings.jsx:23-44 | two column sets that agree on every field are equal |
| EmailSettingsApi.OrNull | app/routes/_index/api.email-settings.jsx:24-31 | `v \|\| null`: null for a falsy value, the value itself otherwise |
| EmailSettingsApi.Storable | app/routes/_index/api.email-settings.jsx:21-44 | no contract of its own: UpsertOf states that an entry yields an upsert iff it is storable |
| EmailSettingsApi.UpsertOf | app/routes/_index/api.email-settings.jsx:20-46 | an entry yields an upsert iff its type is a string and every `field \|\| null` is null or a string; the upsert is keyed by the entry's type |
| EmailSettingsApi.UpsertOfColumns | app/routes/_index/api.email-settings.jsx:24-31 | each column of an entry's upsert is null when the entry's field is falsy, the field's text otherwise |
| EmailSettingsApi.Upserted | app/routes/_index/api.email-settings.jsx:21-45 | the row of that type is created or updated to the new columns, `updatedAt` set on update; other rows unchanged |
| EmailSettingsApi.UpsertedAll | app/routes/_index/api.email-settings.jsx:20-46 | the table stays keyed by type after any sequence of upserts; what each type holds is stated by UpsertedAllAt |
| EmailSettingsApi.UpsertedAllAt | app/routes/_index/api.email-settings.jsx:20-48 | after the upserts a type is stored iff it was stored or mentioned; a mentioned type holds the columns of its last upsert; others unchanged |
| EmailSettingsApi.Contents | app/routes/_index/api.email-settings.jsx:21-44 | no contract of its own: the stored text of each row without its update time, compared by SaveTwiceSameContents |
| EmailSettingsApi.SaveTwiceSameContents | app/routes/_index/api.email-settings.jsx:20-48 | saving the same settings twice stores the same contents as saving once (only `updatedAt` differs) |
| EmailSettingsApi.DistinctTypesAllStored | app/routes/_index/api.email-settings.jsx:20-48 | with distinct types every posted entry is stored with its own columns |
| EmailSettingsApi.LastColumnsOfUnique | app/routes/_index/api.email-settings.jsx:20-48 | with distinct types the last upsert of an entry's type is that entry |
| EmailSettingsApi.Entries | app/routes/_index/api.email-settings.jsx:16-20 | the parsed payload can be mapped iff it is an array |
| EmailSettingsApi.FirstUnformed | app/routes/_index/api.email-settings.jsx:20-46 | every entry from the start position up to the result is storable, and the entry at the result, if any, is not |
| EmailSettingsApi.UpsertsOf | app/routes/_index/api.email-settings.jsx:20-46 | the upserts of the longest prefix of entries the table accepts, stopping at the first entry it refuses |
| EmailSettingsApi.Done | app/routes/_index/api.email-settings.jsx:20-48 | the number of upserts that complete; all entries complete iff the table accepts every entry and no write fails |
| EmailSettingsApi.StopsAt | app/routes/_index/api.email-settings.jsx:20-48 | the number of completed upserts is the index of the first entry that cannot be formed or whose write fails |
| EmailSettingsApi.TemplateTable.constructor | app/routes/_index/api.email-settings.jsx:21-22 | the table starts keyed by type |
| EmailSettingsApi.TemplateTable.ApplyAll | app/routes/_index/api.email-settings.jsx:20-48 | the entries' upserts are applied in order up to the first refused entry or failed write; the rows are then those of applying exactly that prefix, and it completes iff every entry was stored |
| EmailSettingsApi.TemplateTable.Action | app/routes/_index/api.email-settings.jsx:14-54 | a payload that is not an array fails with nothing stored; otherwise the completed upserts are applied in order, and the reply is success iff all of them completed |
| EmailSetting.DefaultSettings | app/routes/emailsetting.jsx:45-177 | the initial subjects, previews and bodies of three emails and the five empty upload-page fields |
| EmailSetting.LoadRow | app/routes/emailsetting.jsx:189-198 | a stored row loads as all eight fields, each its value or `''` when falsy |
| EmailSetting.LoadedFrom | app/routes/emailsetting.jsx:182-199 | no contract of its own: its keys and records are stated by LoadedFromKeys, LoadedFromLast and LoadedFromAt |
| EmailSetting.LoadedFromAt | app/routes/emailsetting.jsx:180-202 | after loading, a type has a record iff it is one of the four or some row has it; the last row of a type wins; a listed type without rows gets an empty record |
| EmailSetting.LoadedFromKeys | app/routes/emailsetting.jsx:180-202 | after loading, a type has a record iff it is one of the four or some row has it; a listed type without rows gets an empty record |
| EmailSetting.LoadedFromLast | app/routes/emailsetting.jsx:189-198 | the record loaded for a type is that of its last row |
| EmailSetting.WithField | app/routes/emailsetting.jsx:335-343 | only that field of that record is set; every other field and record unchanged |
| EmailSetting.EditsCommute | app/routes/emailsetting.jsx:335-343 | edits of different fields can be made in either order |
| EmailSetting.EditSameValue | app/routes/emailsetting.jsx:335-343 | writing back a field's own value changes nothing |
| EmailSetting.Entry | app/routes/emailsetting.jsx:254 | the posted entry is an object whose keys are exactly `type` and the names of the record's fields, with the type and each field's text as values |
| EmailSetting.PayloadOf | app/routes/emailsetting.jsx:252-256 | no contract of its own: its shape is stated by PayloadShape and what the API stores from it by PayloadUpserts and SaveThenLoad |
| EmailSetting.PayloadShape | app/routes/emailsetting.jsx:251-256 | four entries, in the order verification, success, reject, upload, each with its record's fields |
| EmailSetting.Filled | app/routes/emailsetting.jsx:189-198 | every field present, `''` where the record had none |
| EmailSetting.StoredColumns | app/routes/_index/api.email-settings.jsx:24-31 | a record's non-empty fields become columns, null elsewhere |
| EmailSetting.EntryField | app/routes/_index/api.email-settings.jsx:24-31 | each posted field is stored as the record's non-empty value or null |
| EmailSetting.EntryUpserts | app/routes/_index/api.email-settings.jsx:20-46 | an entry becomes the upsert of its type with the record's stored columns |
| EmailSetting.PayloadUpserts | app/routes/emailsetting.jsx:251-256 | the whole payload becomes four upserts, one per type, in order |
| EmailSetting.LoadStoredColumns | app/routes/emailsetting.jsx:189-198 | a stored record loads back with every field it had and `''` for the others |
| EmailSetting.SaveThenLoad | app/routes/emailsetting.jsx:251-261 | after saving the page's settings, each type's stored row loads back as its record with every field filled |
| EmailSetting.PayloadUpsertsDistinct | app/routes/emailsetting.jsx:253 | the payload's upserts have pairwise different types |
| EmailSetting.PayloadSaves | app/routes/emailsetting.jsx:251-261 | without a database failure every entry of the payload is stored |
| EmailSetting.ToastFor | app/routes/emailsetting.jsx:205-211 | error iff `success` is falsy; the reply's message when truthy, else the fixed success or failure text |
| EmailSetting.ToastForReplies | app/routes/emailsetting.jsx:205-211 | the save action's success reply gives a success toast with its message; its failure reply gives an error toast with the fixed failure text |
| EmailSetting.EmailSettingPage.constructor | app/routes/emailsetting.jsx:39-177 | first tab, toast hidden, no files, default templates |
| EmailSetting.EmailSettingPage.LoadSettings | app/routes/emailsetting.jsx:180-202 | a non-empty load replaces the settings by `LoadedFrom` of the rows; an empty one keeps them |
| EmailSetting.EmailSettingPage.HandleInputChange | app/routes/emailsetting.jsx:335-343 | the settings become `WithField` of the old ones |
| EmailSetting.EmailSettingPage.HandleTabChange | app/routes/emailsetting.jsx:331-333 | only the selected tab changes |
| EmailSetting.EmailSettingPage.HandleDropZoneDrop | app/routes/emailsetting.jsx:215-219 | the accepted files are appended after the earlier ones; rejected files are ignored |
| EmailSetting.EmailSettingPage.OnActionData | app/routes/emailsetting.jsx:205-211 | truthy action data shows its toast; falsy data changes nothing |
| EmailSetting.EmailSettingPage.ToggleToast | app/routes/emailsetting.jsx:213 | hides the toast and keeps its text |
| EmailSetting.EmailSettingPage.SaveSettingsToServer | app/routes/emailsetting.jsx:251-261 | the pushed list equals `PayloadOf` the settings |
| ConfigApi.IsTrue | app/routes/api.config.js:8-13 | a flag is on iff its field's first value is exactly `true` |
| ConfigApi.ParseIntField | app/routes/api.config.js:10 | a missing field parses as NaN; a present one as `parseInt` of its text |
| ConfigApi.ParseConfig | app/routes/api.config.js:6-15 | each flag iff its field is `true`; triggers as posted (null when missing); minimum age `parseInt` of its field |
| ConfigApi.MissingFieldsCleared | app/routes/api.config.js:6-15 | fields the form leaves out are still written: flags false, triggers null, age NaN |
| ConfigApi.UpsertedConfig | app/routes/api.config.js:18-22 | row 1 is created or updated to hold exactly the parsed configuration; `updatedAt` set on update; other rows unchanged |
| ConfigApi.LaterSaveReplaces | app/routes/api.config.js:18-22 | a later save replaces everything an earlier save stored at id 1 |
| ConfigApi.SavedReply | app/routes/api.config.js:23 | status 200 with `success` true and the stored row |
| ConfigApi.FailedReplyHasNoSuccess | app/routes/api.config.js:24-26 | the failure reply has an `error` and no `success` |
| ConfigApi.ConfigTable.constructor | app/routes/api.config.js:18-19 | the table starts keyed by id |
| ConfigApi.ConfigTable.Action | app/routes/api.config.js:5-28 | on success the table becomes `UpsertedConfig` with the parsed form and the reply carries row 1; on failure nothing changes and the reply is the 500 error |
| VerifyApi.RecordOf | app/routes/api.verify.jsx:10 | the six destructured fields of the body |
| VerifyApi.Complete | app/routes/api.verify.jsx:13 | no contract of its own: CompleteIff states that it holds iff every required field is truthy |
| VerifyApi.CompleteIff | app/routes/api.verify.jsx:13-14 | the guard passes iff every one of the six required fields is truthy |
| VerifyApi.ErrorReply | app/routes/api.verify.jsx:30-35 | status 500, no success, the error's message or the fallback text when empty |
| VerifyApi.Nullish | app/routes/api.verify.jsx:10 | no contract of its own: a null or undefined body, the case in which destructuring throws, as VerificationTable.Action states |
| VerifyApi.DestructureMessage | app/routes/api.verify.jsx:10 | destructuring a nullish body throws an error with a non-empty message |
| VerifyApi.VerificationTable.constructor | app/routes/api.verify.jsx:18 | the table starts with the given records |
| VerifyApi.VerificationTable.Action | app/routes/api.verify.jsx:6-39 | unparseable or nullish body gives a 500; a missing field gives the 400; otherwise the record is appended and the reply is success, unless the insert throws, in which case nothing changes and the reply is its 500 |
| Setup.TriggerDescription | app/routes/setup.jsx:35-48 | each offered trigger's description; the default text iff the trigger is not one of the four |
| Setup.OptionsDescribedDistinctly | app/routes/setup.jsx:28-48 | the four offered triggers have four different descriptions, none the default |
| Setup.SetupPayload | app/routes/setup.jsx:54-58 | no contract of its own: what the configuration action reads from this form is stated by SetupPayloadParsed |
| Setup.SetupPayloadParsed | app/routes/setup.jsx:50-59 | the action stores the flag, the trigger and `parseInt` of the age text, and clears the second step's fields |
| Setup.TypedAgeStored | app/routes/setup.jsx:54-58 | an age typed as a decimal number is stored as that number |
| Setup.AfterSave | app/routes/setup.jsx:60-69 | navigates iff the reply's `success` is truthy; a nullish or missing reply alerts the error text; any other reply alerts the failure text |
| Setup.ProceedsIffStored | app/routes/setup.jsx:60-65 | against the configuration action, the page moves on iff the store succeeded; a store failure gives the failure alert |
| Setup.SetupPage.constructor | app/routes/setup.jsx:22-24 | disabled, trigger `checkout`, age `18` |
| Setup.SetupPage.HandleEnableToggle | app/routes/setup.jsx:26 | flips the flag and nothing else |
| Setup.SetupPage.SetPopupTrigger | app/routes/setup.jsx:23 | sets only the trigger |
| Setup.SetupPage.SetMinimumAge | app/routes/setup.jsx:24 | sets only the age text |
| Setup.SetupPage.Description | app/routes/setup.jsx:147 | the default description iff the chosen trigger is not offered |
| Setup.SetupPage.HandleNext | app/routes/setup.jsx:50-70 | posts the three fields and reacts to the reply as `AfterSave` with the second step as target |
| Setup.InitialStatePosts | app/routes/setup.jsx:22-24 | the initial state stores disabled, `checkout` and 18 |
| Setup2.NonEmpty | app/routes/setup2.jsx:35 | the result is no longer than the parts, holds only non-empty parts, and every non-empty part; order and count are stated by NonEmptyConcat and NonEmptySingle |
| Setup2.NonEmptyConcat | app/routes/setup2.jsx:35 | filtering a concatenation filters each side and concatenates, so the kept parts keep their order |
| Setup2.NonEmptySingle | app/routes/setup2.jsx:35 | a single part is kept exactly once if non-empty and dropped otherwise |
| Setup2.MethodsSummary | app/routes/setup2.jsx:31-36 | the summary is never empty ("None" stands in for no method); the text for each combination is stated by MethodsSummaryCases |
| Setup2.MethodsSummaryCases | app/routes/setup2.jsx:31-36 | "E-signature and ID upload", "E-signature", "ID upload" or "None" for the four combinations |
| Setup2.EmailSummary | app/routes/setup2.jsx:163-166 | "Disabled" when off; when on, as long as the trigger plus the "Enabled (" prefix and the closing parenthesis |
| Setup2.EmailSummaryShape | app/routes/setup2.jsx:163-166 | when on, the trigger inside "Enabled (" and ")" with each underscore turned into a space, so no underscore remains |
| Setup2.ReplaceAllConcat | app/routes/setup2.jsx:165 | replacing underscores distributes over concatenation |
| Setup2.ReplaceAllOfWords | app/routes/setup2.jsx:165 | words joined by underscores come out joined by spaces |
| Setup2.EmailSummaryOfWords | app/routes/setup2.jsx:163-166 | the summary of an underscore-joined trigger shows the words joined by spaces |
| Setup2.EmailSummaryOfOptions | app/routes/setup2.jsx:24-29 | the summary text of each of the four offered triggers |
| Setup2.Setup2Payload | app/routes/setup2.jsx:42-47 | no contract of its own: what the configuration action reads from this form is stated by Setup2PayloadParsed |
| Setup2.Setup2PayloadParsed | app/routes/setup2.jsx:40-48 | the action stores the three flags and the trigger, and clears the first step's fields |
| Setup2.SecondStepClobbersFirst | app/routes/setup2.jsx:40-48 | after saving the first step and then the second, row 1 is disabled, without popup trigger and with a NaN age, whatever the first step chose |
| Setup2.Setup2Page.constructor | app/routes/setup2.jsx:19-22 | all three flags on, trigger `after_popup`, which is one of the offered triggers |
| Setup2.Setup2Page.SetESignatureEnabled | app/routes/setup2.jsx:19 | sets only that flag |
| Setup2.Setup2Page.SetIdUploadEnabled | app/routes/setup2.jsx:20 | sets only that flag |
| Setup2.Setup2Page.SetEmailEnabled | app/routes/setup2.jsx:21 | sets only that flag |
| Setup2.Setup2Page.SetEmailTrigger | app/routes/setup2.jsx:22 | sets only the trigger |
| Setup2.Setup2Page.HandleSave | app/routes/setup2.jsx:38-60 | posts the four fields; navigates to the customer list, after the success alert, iff `success` is truthy; otherwise a single failure or error alert |
| Setup2.InitialSummaries | app/routes/setup2.jsx:19-36 | the initial state's summary lines |
| Js.Falsy | app/routes/api.verify.jsx:13 | no contract of its own: undefined, null, false, NaN, 0 and the empty string are falsy; its relation to `isEmpty` is stated by Customers.IsEmptyVersusFalsy |
| Js.Prop | app/routes/setup.jsx:61 | the property's value when the object has it; undefined for a missing property and for a non-object |
| Js.Join | app/routes/customers.jsx:501 | one part joins to itself; the result is empty iff every part is empty and there is at most one part or the separator is empty |
| Js.JoinSnoc | app/routes/setup2.jsx:36 | joining one more part appends the separator and that part |
| Js.ReplaceAll | app/routes/setup2.jsx:165 | same length; each character equal to the searched one is replaced and every other kept; none of the searched character is left |
| Js.IntToString | app/routes/customers.jsx:497 | a non-empty rendering that starts with `-` iff the number is negative; read back by ParseIntOfIntToString |
| Js.TrimStart | app/routes/api.config.js:10 | a suffix of the text; everything dropped is white space and what is left does not start with white space |
| Js.ParseInt | app/routes/api.config.js:10 | no contract of its own: ParseIntOfIntToString and ParseIntWithoutDigits state what it returns |
| Js.ParseIntWithoutDigits | app/routes/api.config.js:10 | text without any decimal digit, such as the `null` of a missing field, parses to NaN |
| Js.FormGetSpec | app/routes/api.config.js:6-14 | null iff no field has the name; otherwise the value of the first field that has it |
| Js.FormGetFirst | app/routes/api.config.js:6-14 | the value of the first field with the name is what the lookup returns |
| Js.FormGetAbsent | app/routes/api.config.js:6-14 | a name no field has looks up as null |
| Js.ParseIntOfIntToString | app/routes/api.config.js:10 | `parseInt` reads back a decimal rendering followed by a non-digit |
| Js.BoolToString | app/routes/setup.jsx:55 | `"true"` iff the flag is on and `"false"` iff it is off |

## Left out

- Rendering: the Polaris markup, labels, placeholders, the table columns, the variable lists and the thumbnails are not modelled. Only the values the screens compute and show are.
- The default HTML bodies of the three emails are not reproduced. They are a parameter, `DefaultBodies`; subjects, previews and the upload fields are exact.
- The rename action of a customer-list tab is not modelled. It refers to an undeclared identifier, so invoking it throws before it changes anything.
- The placeholder callbacks are not modelled: the cancel and save handlers of the toolbar, the page's secondary actions and alerts, and `onAction` of the tabs do nothing.
- The review, PDF-download and resend handlers of the customer list are not modelled. They are network requests and browser downloads; the endpoints they call are not part of this model.
- The loaders of the customer list, the settings screen and the template action are not modelled. They read from the database; their results are inputs (`RowMarkup`'s records, `LoadSettings`' rows).
- `EmailSettingsApi.TemplateTable.Action`: the upserts run concurrently under `Promise.all`. The model applies them one after another and, on a failure, keeps the prefix that completed; which of several concurrent writes land is not captured.
- Whether the database accepts a value is not modelled; it is a failure parameter. This covers a NaN minimum age, a template type it refuses, and any other schema rule.
- `updatedAt` on a newly created row is modelled as absent. The database default for it is not part of this model.
- `parseInt` is modelled for decimal text only. The `0x` prefix, other radixes and numbers beyond exact integer precision are not modelled.
- JSON parsing and serialisation are not modelled: `JSON.parse(JSON.stringify(v))` is taken as `v`. Malformed JSON is a body that cannot be parsed.
- The wire encodings of `FormData` and `URLSearchParams` are not modelled. A form is the list of its name/value pairs.
- `fetch`, `navigate`, `alert`, `submit` and `console` are not modelled as calls; their outcomes are inputs or returned effects.
- The database client's `$disconnect` in the verification action is not modelled: it has no effect on the reply.
- `app/root.jsx`, `app/routes/app._index.jsx` and the three `api.verifications.$id` routes are not part of this model.
- `Customers.CustomerList.DeleteView` requires `index != 0`. The first tab has no delete action, so the screen never calls it with 0.
