# Petition client: a verified model of its form and list logic

The client is a React single-page application for a petition site. Users browse and
filter petitions, open a petition and its support tiers, support a tier, and create or
edit petitions with up to three tiers. This project models the logic behind those
screens. The server's responses, `localStorage` and React state are plain values and
class fields here. The model covers:

- **Field validation** (`StringValidation`, `NumberValidation`).
  - The hooks check a field's value in a fixed order; only the first failing check is
    reported.
  - The maximum and minimum bounds are JavaScript truthiness gates: an absent bound and 0
    both switch the check off.
  - The number hook reads its text with `parseInt` for integer fields and with `Number`
    otherwise (a parameter here). `IntParsing` defines `parseInt`
    (section 19.2.5 of ECMA-262) and proves that an integer field's text counts only up
    to the end of its leading digit run.
  - Each hook keeps a `{value, error}` cell. Its error is recomputed after every change.
- **The server-message formatter** (`Util.FormatServerResponse`).
  - It removes the first occurrence of `Bad Request: data/`, then the first occurrence of
    `Forbidden: `, wherever they stand in the message.
  - It puts the first word into Sentence case and keeps the rest of the message.
- **The cost input** (`CostInput`): the shown text, the error flag and the amount it
  reports.
- **Form gating** (`EditPetition`, `CreatePetition`).
  - The checks that run before a petition is sent.
  - The list of new tiers: guarded append, removal by position, a cap of three.
- **Query and request builders** (`Petitions`, `Api`).
  - The optional query parameters and the page count.
  - The URL shapes.
  - The bodies of the user-update and support requests.
- **Tier and supporter lists.**
  - The tiers a user can still support (`SelectTierModal`, `Petition`).
  - The de-duplicating merge of similar petitions (`Petition`), proved against a
    reference reading.
  - Supporters grouped by tier, and each card's supporter count (`SupportTiersPaper`).
  - Whether a tier card may be edited or deleted, and which buttons it shows
    (`EditSupportTierCard`).
  - The tier-title map of the supporters panel (`SupportersGrid`).

Helper modules:

- `Js`: optional values, JavaScript numbers (NaN or a real number), truthiness,
  `indexOf` and the whitespace that `trim` removes.
- `Decimal`: digit strings and the text of an integer.
- `JsMap`: JavaScript's insertion-ordered `Map`, as a class.
- `Lists`: `filter` by position.
- `ResponseBodies`: the server's records.

Where the source has a loop that updates a map or a field, the model has a method with
loop invariants, proved against a reference function:

- `Petition.MergeSimilarPetitions`;
- `SupportTiersPaper.GroupBySupportTier`;
- `SupportersGrid.BuildSupportTierMap`;
- `EditSupportTierCard.SupportTierCard.BackfillId`.

Where the source keeps state, the model has a class whose methods state the whole new
state.

## Model

| member | source | states |
|---|---|---|
| StringValidation.Evaluate | src/hooks/useStringValidation.ts:24-40 | the effect's verdict chain; `EvaluateReportsFirstViolation` and `NoErrorIffNoViolation` state what it means |
| StringValidation.MatchesEmailPattern | src/hooks/useStringValidation.ts:34-35 | the email regex, case-insensitive; `EmailOfParts` and `EmailParts` characterise it in both directions |
| NumberValidation.Evaluate | src/hooks/useNumberValidation.ts:22-37 | the effect: the verdict on the number read from the text; `EvaluateReportsFirstFailure` states what it means |
| NumberValidation.NumberValue | src/hooks/useNumberValidation.ts:25 | `parseInt` for integer fields and the given `Number` otherwise; `IntegerFieldReadsPrefix` states the integer case |
| NumberValidation.Verdict | src/hooks/useNumberValidation.ts:26-34 | the verdict chain on a read number; `VerdictIsFirstFailure` ties it to the first failing check |
| IntParsing.ParseInt | src/hooks/useNumberValidation.ts:25 | `parseInt` of section 19.2.5 of ECMA-262 with radix 10; its `ParseInt…` lemmas state its result |
| Util.FormatServerResponse | src/model/util.ts:10-15 | the formatter, none where the source throws; `FormatFailsIffNoFirstWord` and `FormatKeepsRest` state its result |
| Util.Stripped | src/model/util.ts:11 | the two `replace` calls in order; `StripsLeadingPrefix` states their effect on a prefixed message |
| Util.ReplaceFirst | src/model/util.ts:11 | `String.replace` with a string pattern; `ReplaceFirstOccurrence` and `ReplaceWithoutOccurrence` state it |
| Util.SentenceCase | src/model/util.ts:14 | the first word converted from camelCase; `SentenceCaseOfWord`, `OneSpacePerCapital` and `CapitalsArePreceded` state it |
| Util.Join | src/model/util.ts:14 | `join(' ')`; `JoinSplit` and `SplitJoin` make it the inverse of `split(' ')` |
| CostInput.MatchesDigits | src/components/CostInput.tsx:28 | the `/^\d+$/` test: a non-empty run of decimal digits; `TypedAmountIsReported` uses it |
| Api.PetitionUrl | src/model/api.ts:109 | the petition URL; `SupportTierUrlsExtendPetitionUrl` relates the other URLs to it |
| Api.PetitionImageUrl | src/model/api.ts:117-119 | the petition image URL; `PetitionImageUrlInjective` and `ImageUrlsDiffer` state it names one petition |
| Api.UserImageUrl | src/model/api.ts:149-151 | the user image URL; `UserImageUrlInjective` states it names one user |
| Api.SupportTiersUrl | src/model/api.ts:301 | where tiers are created; `SupportTierUrlsExtendPetitionUrl` states its shape |
| Api.SupportTierUrl | src/model/api.ts:312 | where one tier is edited or deleted; `SupportTierUrlInjective` states it names one pair |
| Api.SupportersUrl | src/model/api.ts:199 | where supporters are listed and support is posted; `SupportTierUrlsExtendPetitionUrl` states its shape |
| EditSupportTierCard.Editable | src/components/EditSupportTierCard.tsx:71-73 | a tier is editable exactly when it has no supporters; `SupportedTierIsLocked` uses it |
| EditSupportTierCard.Deletable | src/components/EditSupportTierCard.tsx:67-69 | editable and not the only tier; `DeleteEnabledOnlyIfSaveEnabled` and `InfoAlertExplainsLocks` use it |
| EditSupportTierCard.InfoAlert | src/components/EditSupportTierCard.tsx:134-137 | the info alert's text, if shown; `InfoAlertExplainsLocks` ties it to the locking rules |
| CreatePetition.AcceptsTier | src/pages/CreatePetition.tsx:79 | the guard on a new tier; `NaNCostIsRejected` and `PetitionDraft.AddSupportTier` use it |
| CreatePetition.PetitionDraft.ShowAddButton | src/pages/CreatePetition.tsx:162 | the add button is offered while fewer than three tiers are listed |
| SupportTiersPaper.SupportTiersEditor.ShowAddButton | src/components/SupportTiersPaper.tsx:98 | the add button is offered while fewer than three cards are shown |
| SupportTiersPaper.SupportTiersEditor.OnlySupportTier | src/components/SupportTiersPaper.tsx:89-91 | the only-tier flag passed to a card; `OnlyPersistedTierCannotBeDeleted` states its effect |
| SupportTiersPaper.SupportTiersEditor.CardSupporters | src/components/SupportTiersPaper.tsx:85 | the supporter count passed to a card; `SupportersCounted` states what it counts |
| EditPetition.EditPetitionForm.ErrorShown | src/pages/EditPetition.tsx:125-126 | a field's error shows after a save attempt when the error is truthy; `ShownErrorIsVerdict` states it |
| Petition.Keep | src/pages/Petition.tsx:113 | the fetched petitions other than the current one; `KeepMembers` states it |
| Petition.FirstOrder | src/pages/Petition.tsx:114 | the ids in order of first appearance; `FirstOrderFacts` and `FirstOrderIsByFirstIndex` state it |
| Petition.Latest | src/pages/Petition.tsx:114 | each id's last petition; `LatestIsLast` states it |
| SupportTiersPaper.Groups | src/components/SupportTiersPaper.tsx:32-38 | the reference grouping; `GroupsAreFilters` and `GroupLengthsSum` state it |
| SupportTiersPaper.TierOrder | src/components/SupportTiersPaper.tsx:34-35 | the tier ids in order of first appearance; `TierOrderDistinct` states it |
| SupportersGrid.Titles | src/components/SupportersGrid.tsx:19-21 | the reference title map; `TitlesKeys` and `LastTitleWins` state it |
| SupportersGrid.CardsOf | src/components/SupportersGrid.tsx:25-33 | one card per supporter, in order |
| SupportersGrid.SupportersPanel.Shown | src/components/SupportersGrid.tsx:49 | the panel for the current supporters and map; `SupportersChanged` states it |
| SelectTierModal.TierSelection.Cards | src/components/SelectTierModal.tsx:20-29 | the tier cards on offer; `SupportableTiers` and `SupportedTierIsHidden` state which |
| SelectTierModal.TierSelection.MessageModalShown | src/components/SelectTierModal.tsx:82-85 | the message step shows while a tier is selected and its modal open |
| Js.Trim | src/hooks/useStringValidation.ts:28 | `String.prototype.trim` over ECMAScript white space and line terminators |
| Js.TruthyBound | src/hooks/useStringValidation.ts:30-33 | a bound is truthy when present and non-zero; `FalsyBoundsAreUnset` states its effect |
| StringValidation.FirstViolated | src/hooks/useStringValidation.ts:28-38 | the first violated rule of a list, if any; none exactly when no rule is violated |
| StringValidation.EvaluateReportsFirstViolation | src/hooks/useStringValidation.ts:24-40 | the error is the message of the first configured rule that fails, in the order required, maxLength, minLength, email; nothing when none fails |
| StringValidation.NoErrorIffNoViolation | src/hooks/useStringValidation.ts:24-40 | the error is null exactly when no configured rule is violated |
| StringValidation.RequiredBlankIsReported | src/hooks/useStringValidation.ts:28-29 | a required field whose text is all whitespace reports 'This field is required' |
| StringValidation.MessageDeterminesRule | src/hooks/useStringValidation.ts:29-37 | no two rules (and no two bounds) share a message, so the error names the rule and its bound |
| StringValidation.MaxLengthBoundary | src/hooks/useStringValidation.ts:30-31 | with a non-zero maxLength n, a longer text reports 'This field cannot exceed n characters'; a text of length n or less never does |
| StringValidation.MinLengthBoundary | src/hooks/useStringValidation.ts:32-33 | with a non-zero minLength n, a shorter text reaching this check reports 'This field must be at least n characters'; a text of length n or more never does |
| StringValidation.FalsyBoundsAreUnset | src/hooks/useStringValidation.ts:30-33 | a bound of 0 or undefined behaves like no bound and never produces a length message |
| StringValidation.JoinedLabelsAreDomain | src/hooks/useStringValidation.ts:35 | two or more labels joined by dots form a domain the pattern accepts |
| StringValidation.DomainIsJoinedLabels | src/hooks/useStringValidation.ts:35 | every accepted domain is two or more labels joined by dots |
| StringValidation.EmailOfParts | src/hooks/useStringValidation.ts:34-35 | a dot-atom local part, '@' and a domain always match the email pattern |
| StringValidation.EmailParts | src/hooks/useStringValidation.ts:34-35 | every matching text splits into such a local part, '@' and a domain |
| StringValidation.EmailExampleMatches | src/hooks/useStringValidation.ts:34-37 | 'user@example.com' matches the pattern |
| StringValidation.EmailExampleFails | src/hooks/useStringValidation.ts:34-37 | 'not-an-email' does not match the pattern |
| StringValidation.StringField.constructor | src/hooks/useStringValidation.ts:17-21 | the cell starts with the initial value and a null error |
| StringValidation.StringField.RunEffect | src/hooks/useStringValidation.ts:23-41 | the effect sets the error to the verdict on the current value and keeps the value |
| StringValidation.StringField.SetValue | src/hooks/useStringValidation.ts:20-43 | after `setValue(v)` and its effect, the value is v and the error is the verdict on v |
| NumberValidation.FirstFailed | src/hooks/useNumberValidation.ts:26-34 | the first failing check of a list, if any; none exactly when no check fails |
| NumberValidation.EvaluateReportsFirstFailure | src/hooks/useNumberValidation.ts:22-37 | the error is the message of the first configured check that fails, in the order required, numeric, maxValue, minValue |
| NumberValidation.VerdictIsFirstFailure | src/hooks/useNumberValidation.ts:26-34 | the same for any number the text is read as |
| NumberValidation.NoErrorIffNoFailure | src/hooks/useNumberValidation.ts:22-37 | the error is null exactly when no configured check fails |
| NumberValidation.MessageDeterminesCheck | src/hooks/useNumberValidation.ts:27-33 | no two checks (and no two bounds) share a message |
| NumberValidation.RequiredBlankIsReported | src/hooks/useNumberValidation.ts:26-27 | a required blank field reports 'This field is required', before the numeric check |
| NumberValidation.IntegerWithoutDigitsIsNotNumeric | src/hooks/useNumberValidation.ts:25-29 | an integer field whose text has no digit after whitespace and sign reports 'This field must be numeric', required or not |
| NumberValidation.IntegerFieldReadsPrefix | src/hooks/useNumberValidation.ts:25 | an integer field reads whitespace, sign and leading digits as that integer and ignores what follows |
| NumberValidation.TrailingTextIsIgnored | src/hooks/useNumberValidation.ts:25-34 | '12abc' in a required integer field with maximum 20 has no error: it counts as 12 |
| NumberValidation.MaxValueBoundary | src/hooks/useNumberValidation.ts:30-31 | with a non-zero maxValue m, a larger number reports 'This field cannot exceed m'; m or less never does |
| NumberValidation.MinValueBoundary | src/hooks/useNumberValidation.ts:32-33 | with a non-zero minValue m, a smaller number reaching this check reports 'This field must be at least m'; m or more never does |
| NumberValidation.FalsyBoundsAreUnset | src/hooks/useNumberValidation.ts:30-33 | bounds of 0 or undefined are ignored; without them only the required and numeric checks remain |
| NumberValidation.NumberField.constructor | src/hooks/useNumberValidation.ts:16-20 | the cell starts with the initial value and a null error |
| NumberValidation.NumberField.RunEffect | src/hooks/useNumberValidation.ts:22-37 | the effect sets the error to the verdict on the current value |
| NumberValidation.NumberField.SetValue | src/hooks/useNumberValidation.ts:19-39 | after `setValue(v)` and its effect, the value is v and the error is the verdict on v |
| IntParsing.ParseIntReadsLeadingInteger | src/hooks/useNumberValidation.ts:25 | `parseInt` of whitespace, an optional sign and decimal digits followed by a non-digit is that signed integer |
| IntParsing.ParseIntWithoutLeadingDigitIsNaN | src/hooks/useNumberValidation.ts:25 | `parseInt` of a text with no digit after whitespace and sign is NaN |
| IntParsing.ParseIntIgnoresTrailingText | src/hooks/useNumberValidation.ts:25 | `parseInt('12abc')` is 12 |
| IntParsing.ParseIntReadsSign | src/hooks/useNumberValidation.ts:25 | `parseInt(' -7')` is -7 |
| IntParsing.ParseIntOfNonNumericIsNaN | src/hooks/useNumberValidation.ts:25 | `parseInt('abc')` and `parseInt('')` are NaN |
| Decimal.NatToStringRoundTrip | src/hooks/useNumberValidation.ts:31 | reading back the decimal text of a bound gives the bound |
| Decimal.IntToStringInjective | src/hooks/useNumberValidation.ts:31-33 | distinct bounds have distinct texts, so messages with distinct bounds differ |
| Util.FindFrom | src/model/util.ts:11 | the first position at or after a start where a pattern occurs, or none when it occurs nowhere there |
| Util.ReplaceWithoutOccurrence | src/model/util.ts:11 | `replace` with a pattern that does not occur leaves the text alone |
| Util.ReplaceFirstOccurrence | src/model/util.ts:11 | `replace` with a string pattern replaces only its first occurrence |
| Util.StripsLeadingPrefix | src/model/util.ts:11 | a message starting with 'Bad Request: data/' loses exactly that prefix |
| Util.Split | src/model/util.ts:12 | `split(' ')` gives at least one piece and no piece contains a space |
| Util.JoinSplit | src/model/util.ts:12-14 | joining the pieces with spaces gives back the text |
| Util.SplitJoin | src/model/util.ts:12-14 | splitting space-free pieces joined with spaces gives back the pieces |
| Util.FirstPiece | src/model/util.ts:12-14 | the first piece is empty exactly when the text is empty or starts with a space |
| Util.SpacesAreTheOnlyChange | src/model/util.ts:14 | inserting a space before each capital changes nothing but spaces |
| Util.OneSpacePerCapital | src/model/util.ts:14 | exactly one space is inserted per capital letter |
| Util.CapitalsArePreceded | src/model/util.ts:14 | after the insertion every capital is preceded by a space |
| Util.SentenceCaseOfWord | src/model/util.ts:14 | the first letter is upper-cased and the rest of the word only gains one space per capital |
| Util.FormatFailsIffNoFirstWord | src/model/util.ts:10-15 | the formatter throws exactly when the stripped message is empty or starts with a space |
| Util.FormatKeepsRest | src/model/util.ts:10-15 | otherwise it gives the first word in Sentence case, a space, and the rest of the message unchanged |
| CostInput.InitialText | src/components/CostInput.tsx:17 | the field starts with the default's digits, and empty exactly when the default is undefined, '' or 0 |
| CostInput.InitialTextShowsDigits | src/components/CostInput.tsx:17 | a non-negative default starts the field empty or showing digits only |
| CostInput.CostInputField.constructor | src/components/CostInput.tsx:15-18 | the field starts with the default's text and no error |
| CostInput.CostInputField.HandleInputChange | src/components/CostInput.tsx:21-36 | empty text clears the field, flags an error exactly when required and reports '' only when not required; digits are shown and reported as their `parseInt`; anything else keeps the old text, flags an error and reports nothing; the field keeps showing digits only |
| CostInput.CostInputField.ResetError | src/components/CostInput.tsx:34 | the timer clears the error and keeps the text |
| CostInput.TypedAmountIsReported | src/components/CostInput.tsx:28-31 | the decimal text of an amount is accepted and reported as that amount |
| EditPetition.TitleAccepted | src/pages/EditPetition.tsx:35 | a title has no error exactly when it is not blank and has at most 128 characters |
| EditPetition.DescriptionAccepted | src/pages/EditPetition.tsx:36 | a description has no error exactly when it is not blank and has at most 1024 characters |
| EditPetition.EditPetitionForm.constructor | src/pages/EditPetition.tsx:35-43 | the form starts with empty fields under their rules, no category, not submitted and no message |
| EditPetition.EditPetitionForm.DetailsLoaded | src/pages/EditPetition.tsx:45-53 | the loaded title, description and category fill the form and each field's error is its verdict |
| EditPetition.EditPetitionForm.HandleSavePetition | src/pages/EditPetition.tsx:69-92 | saving marks the form submitted; without a category it shows 'Please select a category' and sends nothing; otherwise it clears the message and sends exactly when neither field has an error |
| EditPetition.EditPetitionForm.SaveFailed | src/pages/EditPetition.tsx:91 | a refused save shows the formatted status text, and changes nothing when formatting throws |
| EditPetition.ShownErrorIsVerdict | src/pages/EditPetition.tsx:125-126 | a field error is shown only after a save attempt, and only when the field's verdict is an error |
| EditPetition.SaveValidForm | src/pages/EditPetition.tsx:69-92 | a form with a category and valid fields is sent and shows no message |
| Petitions.PageCount | src/pages/Petitions.tsx:234 | the page count is the ceiling of results over page size: enough pages, and one fewer would not be |
| Petitions.PageCountIsLeast | src/pages/Petitions.tsx:234 | no smaller number of pages holds all results |
| Petitions.PetitionsPage.constructor | src/pages/Petitions.tsx:47-56 | the page starts with no search, no categories, a blank cost, oldest first, page 1 of size 9 |
| Petitions.PetitionsPage.BuildQueryParams | src/pages/Petitions.tsx:59-74 | the query has `q` exactly for a non-empty search, `categoryIds` exactly for a non-empty selection, `supportingCost` exactly for a set cost (0 included), and always the start index, count and sort order |
| Petitions.PetitionsPage.HandleCostFilterChange | src/pages/Petitions.tsx:129-136 | empty text clears the cost, a numeric text sets it, a non-numeric text keeps the old cost; nothing else changes |
| Petitions.PetitionsPage.Pages | src/pages/Petitions.tsx:234 | the pages shown hold all search results |
| Petitions.ZeroCostIsSent | src/pages/Petitions.tsx:67-69 | a cost filter of 0 is sent as `supportingCost` 0 |
| Api.PetitionImageUrlInjective | src/model/api.ts:117-119 | distinct petitions have distinct image URLs |
| Api.UserImageUrlInjective | src/model/api.ts:149-151 | distinct users have distinct image URLs |
| Api.ImageUrlsDiffer | src/model/api.ts:117-119 | a petition's image URL is never a user's image URL |
| Api.SupportTierUrlsExtendPetitionUrl | src/model/api.ts:301-332 | the tier and supporter URLs extend the petition URL |
| Api.SupportTierUrlInjective | src/model/api.ts:312 | a tier URL determines both the petition and the tier |
| Api.UpdateUserData | src/model/api.ts:240-266 | each field is in the body exactly when it is non-empty; the password and current password appear together, whenever either is given |
| Api.SupportBody | src/model/api.ts:356-362 | the support body always has the tier id, and a message exactly when it is non-empty |
| JsMap.OrderedMap.Set | src/pages/Petition.tsx:114 | `set` stores the value, adds a new key at the end and keeps a present key in its place |
| JsMap.SetKeepsKeysDistinct | src/pages/Petition.tsx:114 | `set` never lists a key twice |
| JsMap.OrderedMap.Values | src/pages/Petition.tsx:118 | the values in key order |
| Petition.SimilarQueries | src/pages/Petition.tsx:126-132 | two similar-petition queries, by category and by owner, are made only when both are known |
| Petition.KeepMembers | src/pages/Petition.tsx:113 | the kept petitions are exactly those other than the current one |
| Petition.Merged | src/pages/Petition.tsx:104-133 | the reference merge: one entry per id, in first-appearance order, holding the latest petition with that id |
| Petition.MergeSimilarPetitions | src/pages/Petition.tsx:108-118 | the loop over all result lists and `set` calls gives the reference merge of the kept petitions |
| Petition.SetAll | src/pages/Petition.tsx:113-118 | the inner loop keeps the map equal to the reference merge of what it has processed |
| Petition.MergedExcludesCurrent | src/pages/Petition.tsx:113 | the current petition is never among the similar ones |
| Petition.MergedIdsDistinct | src/pages/Petition.tsx:114 | no petition appears twice |
| Petition.MergedCoversAll | src/pages/Petition.tsx:113-118 | every petition found has its id in the merge |
| Petition.MergedKeepsLast | src/pages/Petition.tsx:114 | each entry is the last petition found with its id |
| Petition.MergedInFirstOrder | src/pages/Petition.tsx:114-118 | the entries are in order of their ids' first appearance |
| Petition.FirstOrderFacts | src/pages/Petition.tsx:114 | the map's keys are the ids found, each once |
| Petition.FirstOrderIsByFirstIndex | src/pages/Petition.tsx:114 | the map's keys are in order of first appearance |
| Petition.LatestIsLast | src/pages/Petition.tsx:114 | each stored petition is the last one found with its id |
| Petition.SupportableTiersOnPage | src/pages/Petition.tsx:166-173 | the page lists a tier exactly when it belongs to the petition and the user supports no tier with its id |
| Petition.OwnerButtons | src/pages/Petition.tsx:198 | the owner always gets Edit, and Delete exactly while the petition has no supporters |
| Petition.RoleOf | src/pages/Petition.tsx:377-383 | the user is the owner exactly when signed in with the owner's id; otherwise unauthenticated or a supporter |
| SelectTierModal.SupportedTierIds | src/components/SelectTierModal.tsx:21-23 | the ids of the tiers the user supports; none when signed out |
| SelectTierModal.SupportableTiers | src/components/SelectTierModal.tsx:25-29 | the tiers whose id is not supported, in their order, one fewer per supported tier |
| SelectTierModal.SignedOutSeesAllTiers | src/components/SelectTierModal.tsx:21-29 | a signed-out user is offered every tier |
| SelectTierModal.SupportedTierIsHidden | src/components/SelectTierModal.tsx:25-29 | a tier the user already supports is never offered |
| SelectTierModal.TierSelection.constructor | src/components/SelectTierModal.tsx:65-66 | the dialog opens with no selection and no message dialog |
| SelectTierModal.TierSelection.ClickTier | src/components/SelectTierModal.tsx:33-36 | clicking an offered tier selects it and opens the message dialog |
| SelectTierModal.TierSelection.CloseMessageModal | src/components/SelectTierModal.tsx:86-89 | closing the message dialog closes both dialogs and keeps the selection |
| SelectTierModal.TierSelection.Cancel | src/components/SelectTierModal.tsx:95 | cancelling closes the tier dialog |
| SupportTiersPaper.FromTier | src/components/SupportTiersPaper.tsx:32-38 | the supporters of one tier, in input order |
| SupportTiersPaper.GroupBySupportTier | src/components/SupportTiersPaper.tsx:32-39 | the grouping loop gives the reference grouping: ids in first-appearance order, each with its supporters pushed in turn |
| SupportTiersPaper.Push | src/components/SupportTiersPaper.tsx:34-37 | one step starts a list for a new tier and pushes the supporter onto its tier's list |
| SupportTiersPaper.GroupsAreFilters | src/components/SupportTiersPaper.tsx:32-38 | each group is exactly its tier's supporters in input order; a tier without a group has none |
| SupportTiersPaper.SupporterInOwnGroup | src/components/SupportTiersPaper.tsx:37 | every supporter is in the group of its own tier |
| SupportTiersPaper.TierOrderDistinct | src/components/SupportTiersPaper.tsx:34-35 | no tier gets two groups |
| SupportTiersPaper.GroupLengthsSum | src/components/SupportTiersPaper.tsx:32-38 | the group lengths add up to the number of supporters |
| SupportTiersPaper.NumberOfSupporters | src/components/SupportTiersPaper.tsx:55-59 | a card's count is its group's length; 0 for no id, id 0 or no group |
| SupportTiersPaper.SupportersCounted | src/components/SupportTiersPaper.tsx:55-59 | with the grouping, a card with a non-zero id counts exactly its tier's supporters |
| SupportTiersPaper.SupportTiersEditor.constructor | src/components/SupportTiersPaper.tsx:19-21 | the cards and persisted tiers start as the petition's tiers, with no supporters grouped |
| SupportTiersPaper.SupportTiersEditor.TiersChanged | src/components/SupportTiersPaper.tsx:24-27 | new tiers replace both the cards and the persisted tiers |
| SupportTiersPaper.SupportTiersEditor.SupportersLoaded | src/components/SupportTiersPaper.tsx:29-42 | the fetched supporters are stored grouped by tier |
| SupportTiersPaper.SupportTiersEditor.DetailsLoaded | src/components/SupportTiersPaper.tsx:44-48 | a refetch replaces only the persisted tiers |
| SupportTiersPaper.SupportTiersEditor.AddSupportTier | src/components/SupportTiersPaper.tsx:50-53 | one blank card (no id, empty title and description, blank cost) is appended and the rest are unchanged |
| SupportTiersPaper.SupportTiersEditor.RemoveSupportTierCard | src/components/SupportTiersPaper.tsx:86-88 | the card at the index goes and the rest keep their order |
| SupportTiersPaper.OnlyPersistedTierCannotBeDeleted | src/components/SupportTiersPaper.tsx:89-91 | a persisted card of a petition with exactly one persisted tier has Delete disabled |
| SupportTiersPaper.UnsupportedTierCanBeDeleted | src/components/SupportTiersPaper.tsx:89-91 | with any other number of persisted tiers, an unsupported persisted card has Delete enabled |
| SupportTiersPaper.AddThenRemove | src/components/SupportTiersPaper.tsx:50-53 | removing the card just added restores the cards |
| Lists.WithoutIndex | src/components/SupportTiersPaper.tsx:87 | filtering by position drops exactly the element at the index; an index out of range drops nothing |
| Lists.RemoveUndoesAppend | src/pages/CreatePetition.tsx:80 | dropping the element just appended gives back the list |
| EditSupportTierCard.ActionButtons | src/components/EditSupportTierCard.tsx:75-95 | a persisted tier offers Delete (disabled unless it has no supporters and is not the only tier) and Save (disabled unless it has no supporters); a new card offers Remove and Create, both enabled |
| EditSupportTierCard.DeleteEnabledOnlyIfSaveEnabled | src/components/EditSupportTierCard.tsx:67-73 | a deletable tier is editable |
| EditSupportTierCard.SupportedTierIsLocked | src/components/EditSupportTierCard.tsx:71-73 | a tier with supporters has both buttons disabled |
| EditSupportTierCard.OnlyTierIsNeverDeleted | src/components/EditSupportTierCard.tsx:67-69 | the only tier can never be deleted, and can be saved exactly when it has no supporters |
| EditSupportTierCard.InfoAlertExplainsLocks | src/components/EditSupportTierCard.tsx:134-137 | the info alert is hidden exactly when the tier may be deleted; its text starts with the supporters reason exactly when the tier may not be edited, and ends with the only-tier reason exactly when it is the only tier |
| EditSupportTierCard.FirstTitleMatch | src/components/EditSupportTierCard.tsx:42-47 | the first fetched tier with the card's title, or none when no tier has it |
| EditSupportTierCard.LaterTiersAreIgnored | src/components/EditSupportTierCard.tsx:42-47 | tiers after the first title match are never considered |
| EditSupportTierCard.SupportTierCard.BackfillId | src/components/EditSupportTierCard.tsx:42-47 | the card takes the id of the first fetched tier with its title, keeps its id when none matches, and nothing else changes |
| EditSupportTierCard.SupportTierCard.constructor | src/components/EditSupportTierCard.tsx:25-29 | the card starts with the tier's title, description and cost, or '' and a blank cost without a tier; no error and no success |
| EditSupportTierCard.SupportTierCard.ShowSuccess | src/components/EditSupportTierCard.tsx:31-33 | success is shown and the error cleared |
| EditSupportTierCard.SupportTierCard.HideSuccess | src/components/EditSupportTierCard.tsx:34 | the timer hides the success alert |
| EditSupportTierCard.SupportTierCard.ReportFailure | src/components/EditSupportTierCard.tsx:52 | a failed request shows the formatted status text, and changes nothing when formatting throws |
| EditSupportTierCard.SupportTierCard.PropsChanged | src/components/SupportTiersPaper.tsx:85-91 | a re-render of the parent passes the current supporter count and only-tier flag; the card's own state is kept |
| EditSupportTierCard.LoadedSupportersLockTitle | src/components/SupportTiersPaper.tsx:29-42 | a card shown before the supporters arrive is locked once a positive count is passed: typing no longer changes its title |
| EditSupportTierCard.SupportTierCard.ChangeTitle | src/components/EditSupportTierCard.tsx:110-111 | typing changes the title only while the current supporter count is 0; nothing else changes |
| EditSupportTierCard.SupportTierCard.ChangeDescription | src/components/EditSupportTierCard.tsx:119-121 | typing changes the description only while the current supporter count is 0; nothing else changes |
| EditSupportTierCard.SupportTierCard.ChangeCost | src/components/EditSupportTierCard.tsx:127-129 | a new cost is taken only while the current supporter count is 0; nothing else changes |
| CreatePetition.PetitionDraft.constructor | src/pages/CreatePetition.tsx:28-32 | the page starts with no image, no error, no tiers and the dialog closed |
| CreatePetition.PetitionDraft.AddSupportTier | src/pages/CreatePetition.tsx:78-83 | a tier with a non-empty title and description and a cost of at least 0 is appended with id 0 and the dialog closes; otherwise nothing changes |
| CreatePetition.NaNCostIsRejected | src/pages/CreatePetition.tsx:79 | a cost that is not a number is never accepted |
| CreatePetition.PetitionDraft.RemoveSupportTier | src/pages/CreatePetition.tsx:92 | the tier at the index goes and the rest keep their order |
| CreatePetition.PetitionDraft.HandleSubmit | src/pages/CreatePetition.tsx:45-57 | without an image it shows 'Please upload an image for your petition.' and sends nothing; otherwise it sends the title, description, the category read by `parseInt`, and the tiers |
| CreatePetition.PetitionDraft.CreateFailed | src/pages/CreatePetition.tsx:65-67 | a refused petition shows the status text |
| CreatePetition.PetitionDraft.SetPetitionImage | src/pages/CreatePetition.tsx:121 | the picker's file becomes the petition image |
| CreatePetition.PetitionDraft.OpenSupportTierModal | src/pages/CreatePetition.tsx:166 | the add button opens the tier dialog |
| CreatePetition.PetitionDraft.CloseSupportTierModal | src/pages/CreatePetition.tsx:175 | dismissing closes the tier dialog |
| CreatePetition.SubmitWithoutImage | src/pages/CreatePetition.tsx:48-51 | without an image, repeated submits send nothing and keep the message |
| CreatePetition.AddThenRemove | src/pages/CreatePetition.tsx:78-92 | removing the tier just added restores the tier list |
| SupportersGrid.BuildSupportTierMap | src/components/SupportersGrid.tsx:17-21 | the loop over a fresh map gives the reference map: ids in first-appearance order, each with its last title |
| SupportersGrid.TitlesKeys | src/components/SupportersGrid.tsx:19-21 | the map's keys are exactly the tier ids given |
| SupportersGrid.LastTitleWins | src/components/SupportersGrid.tsx:20 | for a repeated id the last tier's title wins |
| SupportersGrid.SupportersPanel.constructor | src/components/SupportersGrid.tsx:15 | the panel starts with an empty map |
| SupportersGrid.SupportersPanel.TiersChanged | src/components/SupportersGrid.tsx:17-23 | a change of tiers stores a map built afresh from them |
| SupportersGrid.SupportersPanel.SupportersChanged | src/components/SupportersGrid.tsx:14-49 | a new supporters prop is shown against the current map: the placeholder exactly when it is empty, otherwise one card per supporter |
| SupportersGrid.NoStaleIds | src/components/SupportersGrid.tsx:18-22 | after a change, an id the new tiers lack is not in the map |
| SupportersGrid.ShownPanel | src/components/SupportersGrid.tsx:25-33 | 'No supporters yet' exactly when there are no supporters; otherwise one card per supporter, in order |

## Left out

- HTTP requests, promises, `Promise.all` and React's scheduling of effects and renders
  are not modelled.
  - Each response is a parameter of the method that handles it.
  - Each effect is a method that is called explicitly.
- `localStorage` is not modelled. The signed-in user's id is an `Option<int>`, so stored
  text that does not parse as an integer is not represented.
- Floating-point parsing is not modelled.
  - `Number(value)` (number validation, cost filter) and `parseFloat` (the tier dialog)
    are given as a function parameter or as an already-parsed `Number`.
  - Numbers are NaN or real; infinities and floating-point rounding are not modelled.
- Bounds, ids and costs are integers or reals. The message text of a bound uses integer
  rendering; JavaScript's rendering of non-integral numbers is not modelled.
- Strings: one character is one UTF-16 code unit, and characters outside the Basic
  Multilingual Plane are not modelled.
  - `toUpperCase` upper-cases ASCII letters only.
  - The email pattern's case-insensitive flag folds ASCII letters only.
- `setTimeout` is not modelled as a timer. The call back is an explicit method:
  `CostInput.CostInputField.ResetError` and `EditSupportTierCard.SupportTierCard.HideSuccess`.
- Rendering, MUI components, routing and navigation (including the redirect to the login
  page) are not modelled. Only the choices the views make are modelled: which buttons,
  which error text, which cards.
- `formatDate` is not modelled: it depends on the `Date` and locale APIs.
- Images (upload, object URLs) are not modelled. An image is only present or absent.
- EditSupportTierCard.SupportTierCard.BackfillId: it writes the card's own id field. In
  the source it writes the `supportTierId` of the prop object, which is shared with the
  parent's card list. That aliasing is not modelled.
- EditSupportTierCard.SupportTierCard.constructor: an undefined `supportTier` prop gives a
  card with no id. In the source, `actionButtons` would then throw on
  `supportTier.supportTierId`.
- SupportTiersPaper.Push: `map.get(id)?.push(s)` changes the stored array in place. The
  model stores the extended list under the same key instead. No other reference to the
  array exists, so nothing observable differs.
- Petition.MergeSimilarPetitions: a missing petition id (NaN from `parseInt`) is `None`,
  and then no petition is excluded.
- The add-tier buttons' three-card cap is modelled only as the predicates
  `ShowAddButton` of `SupportTiersPaper.SupportTiersEditor` and
  `CreatePetition.PetitionDraft`.
  - The source does not guard the add handlers themselves.
  - The same holds for `onlySupportTier`
    (`SupportTiersPaper.SupportTiersEditor.OnlySupportTier`).
- The error text under the create form (`errorMessage && formatServerResponse(...)`) is
  not modelled: it is rendering. `Util.FormatServerResponse` states what it shows.
- The parent's re-render is not modelled as a link between objects.
  - `SupportTiersPaper.SupportTiersEditor` holds no card objects.
  - A card's `numberOfSupporters` and `onlySupportTier` change only through
    `EditSupportTierCard.SupportTierCard.PropsChanged`.
  - The panel's supporters change only through
    `SupportersGrid.SupportersPanel.SupportersChanged`.
  - So the model does not force those calls to follow `SupportersLoaded`, `DetailsLoaded` or
    the page's supporters fetch.
