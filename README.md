# Campaign manager: campaign lifecycle and UI controllers

A Dafny model of a small Google Ads campaign manager. The model covers the
Flask backend and the React frontend.

The backend keeps a `campaigns` table. Its handlers:
- create a campaign as a DRAFT after checking the required keys and the
  date format;
- list every campaign, newest first;
- publish a campaign through the Google Ads service, which is idempotent
  for one already PUBLISHED and re-publishes a PAUSED one;
- pause a campaign, which only a PUBLISHED one allows.

The Google Ads service:
- builds a budget, a campaign, an ad group and a responsive search ad;
- converts currency to micros and `YYYY-MM-DD` to `YYYYMMDD`;
- takes the campaign id from the created resource name;
- in mock mode answers with a timestamped id and makes no call.

The frontend has four controllers:
- a view-state machine with four screens;
- a campaign list and an ad-group list, each with a single `processing`
  slot, refetch on success, status-dependent actions and aggregates;
- an ad-group form: a four-step wizard with prefill, one-field updates, a
  name check and create-or-update dispatch.

Files and modules:
- `wrappers.dfy` (`Wrappers`): `Option`.
- `strings.dfy` (`Strings`): digits, one-character `split`, Python's
  `str.replace(c, '')` and JavaScript's `trim`.
- `models.dfy` (`Models`): the Campaign row, its defaults, how PostgreSQL
  stores it (`varchar(n)` widths, 32-bit `integer`, no NUL characters),
  `to_dict`, UUID strings, ISO dates and `strptime('%Y-%m-%d')`.
- `ads_service.dfy` (`AdsService`): `GoogleAdsService`. Every `mutate_*`
  reply is an input. A publish or pause is a `Trace`: the operations
  submitted, then a return value or an exception.
- `campaign_store.dfy` (`CampaignApi`): the four handlers, as methods of
  the class `CampaignStore` over `rows: map<Uuid, Campaign>`. Publish and
  pause also return the Google Ads operations they submitted.
- `ui_types.dfy` (`UiTypes`): the frontend records and the API calls the
  components issue.
- `app_view.dfy` (`AppView`): the class `App`.
- `campaign_list.dfy` (`CampaignListView`): the class
  `CampaignListController`, stats and badge.
- `ad_group_list.dfy` (`AdGroupListView`): the class
  `AdGroupListController`, counts, keyword preview and badge.
- `ad_group_form.dfy` (`AdGroupFormView`): the class
  `AdGroupFormController`, prefill, fields and submit.

Some things outside the code are inputs to the model:
- the clock: `Timestamp` parameters;
- the fresh UUID;
- the Google Ads replies;
- the text of a database failure;
- `parseFloat`;
- the user's answer to `confirm`;
- whether an HTTP request from the frontend succeeded.

A frontend handler that awaits a request is split into two steps. The first
step runs up to the `await` and returns the request it sends. A later
`...Settled` step applies the reply. This split makes the in-flight state
(`processing`, `loading`) visible.

## Model

| member | source | states |
|---|---|---|
| Strings.PadDecimal | backend/models.py:42 | zero-padded to exactly the width, all digits, reads back as the number |
| Strings.Split | frontend/src/components/AdGroupList.tsx:199 | a split always has at least one piece |
| Strings.SplitLength | frontend/src/components/AdGroupList.tsx:199-205 | the split has one piece more than there are separators |
| Strings.SplitPiecesHaveNoSeparator | frontend/src/components/AdGroupList.tsx:199 | no piece of a split contains the separator |
| Strings.JoinSplit | frontend/src/components/AdGroupList.tsx:199 | joining the pieces with the separator gives back the string |
| Strings.SplitWithoutSeparator | frontend/src/components/AdGroupList.tsx:199 | a string without the separator is one piece |
| Strings.SplitAround | backend/google_ads_service.py:71 | a separator between two strings splits them apart |
| Strings.LastSegment | backend/google_ads_service.py:71 | `split(sep)[-1]` never contains the separator |
| Strings.LastSegmentAfterSeparator | backend/google_ads_service.py:71 | the last segment of `prefix/id` is `id` when `id` has no separator |
| Strings.DeleteAll | backend/google_ads_service.py:60 | `replace(c, '')` leaves no `c` and removes exactly the occurrences |
| Strings.DeleteAllAppend | backend/google_ads_service.py:60 | deletion distributes over concatenation |
| Strings.DeleteAllAbsent | backend/google_ads_service.py:60 | a string without `c` is unchanged |
| Strings.DeleteOne | backend/google_ads_service.py:60 | one deleted separator joins its two sides |
| Strings.DeleteAfterClean | backend/google_ads_service.py:60 | a clean prefix survives the deletion |
| Strings.DeleteSeparators | backend/google_ads_service.py:60 | deleting the two separators of `a-b-e` gives `abe` |
| Strings.LeadingEnd | frontend/src/components/AdGroupForm.tsx:66 | the whitespace run from a position ends at the returned position, before a non-whitespace character or at the end |
| Strings.TrailingStart | frontend/src/components/AdGroupForm.tsx:66 | the whitespace run ending at a position, bounded below, starts at the returned position, after a non-whitespace character or at the bound |
| Strings.TrimStart | frontend/src/components/AdGroupForm.tsx:66 | a suffix of the string; everything dropped before it is whitespace; it starts with a non-whitespace character unless empty |
| Strings.TrimEnd | frontend/src/components/AdGroupForm.tsx:66 | a prefix of the string; everything dropped after it is whitespace; it ends with a non-whitespace character unless empty |
| Strings.Trim | frontend/src/components/AdGroupForm.tsx:66 | the piece of the string left after its leading and trailing whitespace: what comes before and after it is all whitespace, and it is empty or starts and ends with a non-whitespace character |
| Strings.TrailingStartOfSuffix | frontend/src/components/AdGroupForm.tsx:66 | trailing whitespace found in a suffix is the trailing whitespace of the string above the cut |
| Strings.TrimIsBothEnds | frontend/src/components/AdGroupForm.tsx:66 | `trim()` is trimming the start and then the end |
| Strings.TrimStartEmpty | frontend/src/components/AdGroupForm.tsx:66 | trimming the start gives nothing iff all is whitespace |
| Strings.TrimEndEmpty | frontend/src/components/AdGroupForm.tsx:66 | trimming the end gives nothing iff all is whitespace |
| Strings.TrimEmptyIffAllWhitespace | frontend/src/components/AdGroupForm.tsx:66 | `trim()` is empty exactly when every character is JavaScript whitespace |
| Models.StrOrNull | backend/models.py:45-49 | null exactly when the column holds no value |
| Models.RealOrNull | backend/models.py:40 | null exactly when the column holds no value |
| Models.UuidString | backend/models.py:35 | `str(uuid)` is 36 characters |
| Models.UuidRoundTrip | backend/models.py:35 | the string form of a UUID parses back to it |
| Models.HexRoundTrip | backend/models.py:35 | a hex digit reads back as its value |
| Models.UuidStringInjective | backend/models.py:35 | distinct UUIDs have distinct string forms |
| Models.IsoDate | backend/models.py:42-43 | `isoformat()` is 10 characters with dashes at 4 and 7 |
| Models.MatchMonth | backend/app.py:35 | the `%m` directive yields a month 1..12 followed by `-` |
| Models.MatchDay | backend/app.py:35 | the `%d` directive yields a day 1..31 within the input |
| Models.ParseDate | backend/app.py:35-36 | a parsed date comes from 8 to 10 characters: four digits giving the year, then `-` |
| Models.IsoDateRoundTrip | backend/app.py:35-36 | `strptime('%Y-%m-%d')` reads back every date `isoformat()` writes |
| Models.IsoDateTime | backend/models.py:50 | `created_at.isoformat()` starts with the ISO date and `T`; 19 or 26 characters |
| Models.ColumnValue | backend/models.py:14-29 | a defaulted column takes the given value, and its default when none or `None` is given |
| Models.Varchar | backend/models.py:12-30 | `varchar(n)` stores a string of at most n characters without NUL as is; a longer one only when all the excess is spaces, cut to n; anything else is refused |
| Models.StoredRow | backend/models.py:12-30 | a stored row fits every column; a row that fits is stored unchanged; only string columns can be cut |
| Models.NullableVarchar | backend/models.py:21-25 | a nullable `String(n)`: NULL is stored; a value is refused exactly when `varchar(n)` refuses it; a stored value fits, and a fitting one is stored as is |
| Models.NullableText | backend/models.py:24 | a nullable `Text`: refused exactly when the value contains NUL, otherwise stored as given |
| Models.OverlongValuesRefused | backend/models.py:12-15 | a name over 255 characters not followed by a space, or a budget outside 32 bits, is refused |
| Models.PaddedStringIsCut | backend/models.py:12 | a full-width string followed by spaces is stored cut to the width |
| Models.StoredRowCutsName | backend/models.py:12 | a name that `varchar(255)` cuts to a fitting row's name stores that row |
| Models.ToDict | backend/models.py:33-51 | the keys are exactly the sixteen listed |
| Models.ToDictHasSixteenKeys | backend/models.py:34-51 | there are sixteen distinct keys |
| Models.DistinctCardinality | backend/models.py:34-51 | distinct keys give a set of the same size |
| Models.ToDictId | backend/models.py:35 | `id` is a string that parses back to the row's UUID |
| Models.ToDictDates | backend/models.py:42-43 | the dates are strings that `strptime` parses back to the stored dates |
| Models.ToDictDateStrings | backend/models.py:42-43 | the dates are their ISO strings |
| Models.ToDictOptionals | backend/models.py:40-49 | every optional key is present, null exactly when unset |
| Models.ToDictAdTexts | backend/models.py:46-49 | the ad texts are emitted as stored, null when unset |
| Models.ToDictRequiredNeverNull | backend/models.py:36-50 | required and defaulted keys are never null; the budget is an integer |
| AdsService.CompactStamp | backend/google_ads_service.py:96 | `%Y%m%d%H%M%S` is 14 digits |
| AdsService.SpacedStamp | backend/google_ads_service.py:32 | `%Y-%m-%d %H:%M:%S` is 19 characters |
| AdsService.MockCampaignId | backend/google_ads_service.py:24 | `MOCK_CAMPAIGN_ID_` followed by 14 digits |
| AdsService.Truncate | backend/google_ads_service.py:97 | `int(x)` rounds toward zero, within one unit of `x` |
| AdsService.CurrencyToMicros | backend/google_ads_service.py:97 | a whole number of currency units in micros; the amount rounded toward zero, within one unit of it; a whole amount converts exactly |
| AdsService.DateField | backend/google_ads_service.py:59-62 | null or empty leaves the field unset; otherwise no `-` remains |
| AdsService.DateFieldOfIsoDate | backend/google_ads_service.py:59-62 | `YYYY-MM-DD` becomes the eight characters `YYYYMMDD` |
| AdsService.GoogleCampaignId | backend/google_ads_service.py:71 | the id contains no `/` |
| AdsService.GoogleCampaignIdOfResourceName | backend/google_ads_service.py:70-71 | `customers/{c}/campaigns/{id}` yields `{id}` |
| AdsService.DictGet | backend/google_ads_service.py:74 | the default applies only when the key is absent; a null value is kept |
| AdsService.NewBudget | backend/google_ads_service.py:91-98 | the budget is in micros with STANDARD delivery |
| AdsService.NewCampaign | backend/google_ads_service.py:32-62 | PAUSED, SEARCH channel, both networks, the new budget, dates through `DateField` |
| AdsService.NewAdGroup | backend/google_ads_service.py:105-116 | ENABLED, SEARCH_STANDARD, CPC bid 1,000,000 micros, on the given campaign |
| AdsService.NewAd | backend/google_ads_service.py:123-141 | PAUSED; 3 headlines and 2 descriptions, only the first of each from the data; the final URL from `asset_url`; key-absent defaults |
| AdsService.PublishableCampaignDict | backend/app.py:83 | `to_dict()` output has the string name, integer budget and date strings the publish reads |
| AdsService.PublishCampaign | backend/google_ads_service.py:16-89 | at most four operations; an exception only in live mode after at least one; a live return after all four |
| AdsService.PublishInMockMode | backend/google_ads_service.py:21-24 | mock mode submits nothing and returns the mock id |
| AdsService.PublishInLiveMode | backend/google_ads_service.py:26-79 | live publish succeeds iff all four calls succeed; then the id is the resource name's last segment and four operations were submitted |
| AdsService.PublishInLiveModeSubmits | backend/google_ads_service.py:26-79 | the four operations of a successful publish are, in order, budget, campaign, ad group and ad, each linked to the one before and carrying its fixed settings |
| AdsService.PublishStopsAtFirstFailure | backend/google_ads_service.py:26-89 | the first failing call is the last one submitted, and its exception propagates |
| AdsService.PublishSendsData | backend/google_ads_service.py:59-141 | ad group name, headline, description and final URL come from `data.get`; dates from `DateField` |
| AdsService.PublishOfCampaignDict | backend/app.py:83-87 | on `to_dict()` output unset ad texts are sent as null, not as defaults; dates are sent compacted |
| AdsService.PauseAsWritten | backend/google_ads_service.py:148-175 | as written, it returns True exactly in mock mode |
| AdsService.PauseAsWrittenNeverSucceedsLive | backend/google_ads_service.py:166 | in live mode the pause always raises |
| AdsService.PauseCampaign | backend/google_ads_service.py:148-175 | mock mode: True with no call; live mode: one PAUSED update with mask `status`; True iff the call succeeds, its exception otherwise |
| CampaignApi.KeyedResponse | backend/app.py:31 | the status given; the body is an object with the single given key (`error` or `message`) holding the text |
| CampaignApi.FirstMissingIsFirst | backend/app.py:28-31 | the missing field reported is absent and every earlier required field is present; none is reported iff all are present |
| CampaignApi.FirstMissingAt | backend/app.py:29-31 | the first absent field in declaration order is the one reported |
| CampaignApi.FirstMissing | backend/app.py:28-31 | a reported field is one of the required fields and absent from the body |
| CampaignApi.NoneMissingGivesDates | backend/app.py:28-36 | once no required key is missing, all five keys are there |
| CampaignApi.CheckDates | backend/app.py:34-38 | dates parse iff both are strings of the format; parsed values are `strptime`'s; a null date leads to TypeError |
| CampaignApi.NewRow | backend/app.py:40-54 | new row: DRAFT, no Google id, the given id and time, the body's name, objective, budget and dates, `data.get` of target CPA, ad group name, headline, description and asset URL, column defaults for missing or null defaulted keys |
| CampaignApi.NewRowStored | backend/app.py:56-57 | a new row that fits the columns is stored unchanged; a 256-character name ending in a non-space or a budget of 2^31 is refused |
| CampaignApi.EmptyNameAndReversedDatesPass | backend/app.py:28-38 | an empty name and an end date before the start date pass validation |
| CampaignApi.LookupAsWritten | backend/app.py:76-77 | as written, an unknown id is answered 500 with the NotFound text |
| CampaignApi.LookupRow | backend/app.py:77 | a known id yields its row; an unknown id is answered 404 |
| CampaignApi.LookupAsWrittenAnswers500 | backend/app.py:99-101 | the two agree on known ids; on unknown ids it is 500 against 404 |
| CampaignApi.InsertNewestFirstPermutes | backend/app.py:68 | inserting adds exactly that row |
| CampaignApi.InsertNewestFirstNoNewer | backend/app.py:68 | inserting keeps a bound on the newest timestamp |
| CampaignApi.InsertNewestFirstKeepsOrder | backend/app.py:68 | inserting keeps the list sorted by `created_at` descending |
| CampaignApi.InsertNewestFirstIds | backend/app.py:68 | inserting a new id keeps ids distinct and adds exactly that row |
| CampaignApi.InsertNewestFirstDistinct | backend/app.py:68 | inserting a row with a new id into a list of distinct ids keeps them distinct |
| CampaignApi.InsertNewestFirst | backend/app.py:68 | one row longer, holding the new row, every other row taken from the list |
| CampaignApi.ListBody | backend/app.py:69 | a list with one object per campaign, each with the sixteen `to_dict` keys |
| CampaignApi.ListBodyItems | backend/app.py:69 | one `to_dict()` per campaign, in order |
| CampaignApi.CollectStep | backend/app.py:68 | adding one more row keeps the partial listing complete, distinct and sorted |
| CampaignApi.StoreValidRow | backend/app.py:93-95 | storing a row under its own id, with a Google id unless it is a DRAFT, keeps the table's invariant |
| CampaignApi.PublishRow | backend/app.py:83-87 | the publish succeeds iff in mock mode or all four calls succeed; mock mode submits nothing and returns the mock id; live mode submits one to four operations |
| CampaignApi.PublishCommit | backend/app.py:93-95 | a PUBLISHED row with a fitting Google id is stored unchanged; an overlong id not followed by a space is refused; the mock id always fits |
| CampaignApi.CampaignStore.constructor | backend/models.py:8-9 | an empty table satisfying the invariant |
| CampaignApi.CampaignStore.CreateCampaign | backend/app.py:23-63 | 400 naming the first missing field; 400 for a bad date; 500 for a null date, a null NOT NULL value, a taken id or a row the columns refuse; otherwise 201 with exactly one new DRAFT row, as the columns store it, under an id that was not taken; any other answer stores nothing |
| CampaignApi.CampaignStore.RowsNewestFirst | backend/app.py:68 | every row exactly once, sorted by `created_at` descending |
| CampaignApi.CampaignStore.GetCampaigns | backend/app.py:65-72 | 200 with all rows serialised newest first; no change |
| CampaignApi.CampaignStore.Publish | backend/app.py:74-101 | unknown id or already PUBLISHED: no Google Ads call and no change, 404 or 200 with its Google id; otherwise the operations of the publish are returned, an ads failure is 500 with no change, and on success the row becomes PUBLISHED with the new id unless the column refuses the id (500, no change); only that row changes |
| CampaignApi.CampaignStore.Pause | backend/app.py:103-125 | unknown or not PUBLISHED: no Google Ads call, 404 or 400, no change; PUBLISHED: the pause operations are returned, success makes it PAUSED keeping the Google id, failure is 500 with no change |
| AppView.App.constructor | frontend/src/App.tsx:13-15 | campaign list, no selections |
| AppView.App.Rendered | frontend/src/App.tsx:96-126 | each view renders its screen; ad-group screens only with a selected campaign, else nothing |
| AppView.App.HandleNewCampaign | frontend/src/App.tsx:98 | campaign form; selections kept |
| AppView.App.HandleViewAdGroups | frontend/src/App.tsx:17-20 | ad-group list of that campaign; the selected ad group kept |
| AppView.App.HandleNewAdGroup | frontend/src/App.tsx:22-25 | ad-group form with no ad group; campaign kept |
| AppView.App.HandleEditAdGroup | frontend/src/App.tsx:27-30 | ad-group form on that ad group; campaign kept |
| AppView.App.HandleBackToCampaigns | frontend/src/App.tsx:32-36 | campaign list, both selections cleared |
| AppView.App.HandleBackToAdGroups | frontend/src/App.tsx:38-41 | ad-group list, only the ad group cleared |
| CampaignListView.ActionFor | frontend/src/components/CampaignList.tsx:337-357 | Publish iff DRAFT, Disable iff PUBLISHED, the Disabled label iff PAUSED |
| CampaignListView.ButtonDisabled | frontend/src/components/CampaignList.tsx:223 | a button is disabled exactly when its campaign is the one processing; none is while nothing is |
| CampaignListView.ButtonText | frontend/src/components/CampaignList.tsx:220-237 | `...` exactly when this campaign is processing |
| CampaignListView.TotalSpend | frontend/src/components/CampaignList.tsx:83 | non-negative when no budget is negative; 0 when every budget is missing |
| CampaignListView.TotalSpendAppend | frontend/src/components/CampaignList.tsx:83 | total spend adds over concatenation |
| CampaignListView.TotalSpendOne | frontend/src/components/CampaignList.tsx:83 | one campaign contributes its budget, 0 when missing; with the empty case and additivity this fixes the sum |
| CampaignListView.TotalSpendBounds | frontend/src/components/CampaignList.tsx:83 | with non-negative budgets the total bounds each budget |
| CampaignListView.Statuses | frontend/src/components/CampaignList.tsx:84 | the campaigns' statuses, position by position |
| CampaignListView.ActiveCount | frontend/src/components/CampaignList.tsx:84 | at most the number of campaigns; zero exactly when none is PUBLISHED |
| UiTypes.Count | frontend/src/components/CampaignList.tsx:84 | `filter(...).length`: at most the length, zero iff the value does not occur |
| CampaignListView.CountPartition | frontend/src/components/CampaignList.tsx:84 | DRAFT, PUBLISHED and PAUSED counts sum to the length |
| CampaignListView.StatusCountsPartition | frontend/src/components/CampaignList.tsx:84 | the three status counts sum to the total; active count at most the total |
| CampaignListView.PositiveRoas | frontend/src/components/CampaignList.tsx:87 | no more than the campaigns; a value is kept exactly when some campaign has it as a positive roas |
| CampaignListView.SumOfPositives | frontend/src/components/CampaignList.tsx:89 | a non-empty sum of positives is positive |
| CampaignListView.AverageRoas | frontend/src/components/CampaignList.tsx:86-90 | no average (`'0.00'`) iff the positive-roas list is empty; otherwise positive |
| CampaignListView.SomePositiveRoasGivesAverage | frontend/src/components/CampaignList.tsx:87-89 | one campaign with a positive roas means an average is shown |
| CampaignListView.NoPositiveRoasNoAverage | frontend/src/components/CampaignList.tsx:88-90 | with no positive ROAS the display is `'0.00'` |
| CampaignListView.CampaignBadge | frontend/src/components/CampaignList.tsx:364-382 | PUBLISHED green `status-published`; PAUSED yellow; anything else slate; `status-draft` otherwise; text is the status |
| CampaignListView.CampaignListController.constructor | frontend/src/components/CampaignList.tsx:14-16 | empty list, loading, nothing processing |
| CampaignListView.CampaignListController.Mounted | frontend/src/components/CampaignList.tsx:19-21 | the mount effect requests the campaign list |
| CampaignListView.CampaignListController.FetchSettled | frontend/src/components/CampaignList.tsx:23-32 | a reply replaces the list, a failure keeps it; loading ends |
| CampaignListView.CampaignListController.HandlePublish | frontend/src/components/CampaignList.tsx:34-37 | `processing` is the id, only its buttons disabled; a publish request |
| CampaignListView.CampaignListController.HandleDisable | frontend/src/components/CampaignList.tsx:60-65 | `processing` is the id; a pause request |
| CampaignListView.CampaignListController.ActionSettled | frontend/src/components/CampaignList.tsx:45-79 | `processing` cleared either way; refetch after success only; the list untouched |
| AdGroupListView.AdGroupStatuses | frontend/src/components/AdGroupList.tsx:129 | the ad groups' statuses, position by position |
| AdGroupListView.CountWithStatus | frontend/src/components/AdGroupList.tsx:129 | at most the number of ad groups; zero exactly when none has that status |
| AdGroupListView.TwoCountsAtMostTotal | frontend/src/components/AdGroupList.tsx:129 | the counts of two different statuses add up to at most the length |
| AdGroupListView.ActivePlusPausedAtMostTotal | frontend/src/components/AdGroupList.tsx:120-138 | Active plus Paused is at most the total |
| AdGroupListView.Preview | frontend/src/components/AdGroupList.tsx:195-206 | no preview exactly for missing or empty keywords |
| AdGroupListView.PreviewCounts | frontend/src/components/AdGroupList.tsx:199-205 | with n = commas + 1: min(3, n) trimmed pieces; `+(n−3) more` iff n > 3 |
| AdGroupListView.PreviewOfOneKeyword | frontend/src/components/AdGroupList.tsx:199-203 | no comma: one trimmed chip, no note |
| AdGroupListView.AdGroupBadge | frontend/src/components/AdGroupList.tsx:275-298 | ENABLED reads Active with `status-published`; PAUSED and REMOVED get `status-draft`; REMOVED red; others show their name |
| AdGroupListView.ButtonDisabled | frontend/src/components/AdGroupList.tsx:240-250 | the delete and toggle buttons are disabled exactly when their ad group is the one processing; none is while nothing is |
| AdGroupListView.ToggleText | frontend/src/components/AdGroupList.tsx:257-263 | `...` iff processing; Pause iff idle and ENABLED; Enable iff idle and any other status |
| AdGroupListView.ToggleCall | frontend/src/components/AdGroupList.tsx:54-60 | pause iff ENABLED, enable for any other status |
| AdGroupListView.AdGroupListController.constructor | frontend/src/components/AdGroupList.tsx:16-18 | empty list, loading, nothing processing |
| AdGroupListView.AdGroupListController.Mounted | frontend/src/components/AdGroupList.tsx:20-22 | the mount effect sets loading and requests this campaign's ad groups |
| AdGroupListView.AdGroupListController.FetchAdGroups | frontend/src/components/AdGroupList.tsx:24-27 | loading set; requests this campaign's ad groups |
| AdGroupListView.AdGroupListController.FetchSettled | frontend/src/components/AdGroupList.tsx:28-33 | a reply replaces the list, a failure keeps it; loading ends |
| AdGroupListView.AdGroupListController.HandleDelete | frontend/src/components/AdGroupList.tsx:36-41 | cancelled: no call, no change; confirmed: processing the id, a delete request |
| AdGroupListView.AdGroupListController.HandleToggleStatus | frontend/src/components/AdGroupList.tsx:51-60 | processing the id; the toggle request |
| AdGroupListView.AdGroupListController.ActionSettled | frontend/src/components/AdGroupList.tsx:42-66 | processing cleared; refetch with loading after success; nothing else changes after failure |
| AdGroupFormView.Prefill | frontend/src/components/AdGroupForm.tsx:37-51 | name and bids copied; each other field the value or `''` |
| AdGroupFormView.PrefillOfBareAdGroup | frontend/src/components/AdGroupForm.tsx:14-51 | a bare ad group prefills the initial data with its name |
| AdGroupFormView.Get | frontend/src/components/AdGroupForm.tsx:14-27 | the bid fields hold numbers, the others text |
| AdGroupFormView.With | frontend/src/components/AdGroupForm.tsx:57-60 | the named field gets the value; every other field is unchanged |
| AdGroupFormView.FieldsDetermineForm | frontend/src/components/AdGroupForm.tsx:14-27 | form data equal field by field are equal |
| AdGroupFormView.WithOwnValue | frontend/src/components/AdGroupForm.tsx:57-60 | writing a field's own value changes nothing |
| AdGroupFormView.InputValue | frontend/src/components/AdGroupForm.tsx:59 | a number input: undefined iff `''`; a text input keeps its string |
| AdGroupFormView.NameMissing | frontend/src/components/AdGroupForm.tsx:66 | rejected iff the name is all whitespace |
| AdGroupFormView.SaveCall | frontend/src/components/AdGroupForm.tsx:74-79 | update of the ad group's id iff editing, else create under the campaign, with the form data |
| AdGroupFormView.SubmitButton | frontend/src/components/AdGroupForm.tsx:420-423 | a submit button only on step 4, disabled iff loading |
| AdGroupFormView.AdGroupFormController.IsEditing | frontend/src/components/AdGroupForm.tsx:34 | editing iff an ad group is given |
| AdGroupFormView.AdGroupFormController.constructor | frontend/src/components/AdGroupForm.tsx:30-53 | step 1, not loading; prefill when editing, else the initial data |
| AdGroupFormView.AdGroupFormController.AdGroupChanged | frontend/src/components/AdGroupForm.tsx:36-53 | a new ad group prefills; null keeps the data |
| AdGroupFormView.AdGroupFormController.HandleChange | frontend/src/components/AdGroupForm.tsx:55-61 | only the named field changes |
| AdGroupFormView.AdGroupFormController.HandleSubmit | frontend/src/components/AdGroupForm.tsx:63-79 | blank name: no call, loading unchanged; else loading and the save call, an update exactly when editing |
| AdGroupFormView.AdGroupFormController.SaveSettled | frontend/src/components/AdGroupForm.tsx:81-86 | loading ends; `onSuccess` iff the save succeeded |
| AdGroupFormView.AdGroupFormController.GoToStep | frontend/src/components/AdGroupForm.tsx:89-92 | the step is the indicator's number; the form data is outside the frame |
| AdGroupFormView.AdGroupFormController.NextStep | frontend/src/components/AdGroupForm.tsx:163 | step + 1, staying within 1..4; form data untouched |
| AdGroupFormView.AdGroupFormController.PreviousStep | frontend/src/components/AdGroupForm.tsx:207 | step − 1, staying within 1..4; form data untouched |

## Left out

- Wrong-typed JSON values in the create body (a number as `name`, a string as `daily_budget`): `CampaignRequest` holds each key as missing, null or of the column's type. A body that is not JSON is not modelled either.
- `\d` in `strptime` matches every Unicode decimal digit in Python; the model accepts only ASCII digits.
- `strftime` and `isoformat` for years below 1000 are written with four zero-padded digits. Python's `%Y` may print fewer on some platforms.
- Exception texts from the Google Ads library and from the database (IntegrityError) are inputs (`MutateReply.Failed`, `dbError`), not derived.
- `print` and traceback output, Flask routing, CORS, the `uuid` route converter and session plumbing are not modelled. A non-UUID path never reaches a handler.
- `campaign_path` is modelled as the pair `CampaignRef(customer, id)`, not as its formatted string.
- The service builders are records returned by functions, not step-by-step field assignments on protobuf objects. The repeated `status = PAUSED` at line 54 is therefore a single value.
- The `target_cpa` column is `double precision`: its range, rounding, NaN and infinities are not modelled, and a real is stored as given.
- `to_dict`'s `None` branches for dates: the columns are NOT NULL and every row in the model has both dates.
- Rows with equal `created_at`: `RowsNewestFirst` does not fix their relative order, so their order is the database's.
- CampaignListView.AverageRoas: only its presence and sign are stated. The mean itself (a quotient of reals) and `toFixed(2)` formatting are left out, because floating-point arithmetic is not modelled.
- `parseFloat` is a parameter returning a real; `NaN` and partial parses are not modelled.
- Async interleaving is modelled through the split at each `await`: a caller may start several actions before any settles, so a second `HandlePublish` overwrites `processing` and the first `ActionSettled` clears it while the second request is still in flight. What is not modelled is which reply belongs to which request: `...Settled` applies the reply it is given.
- frontend/src/api.ts is not modelled: requests are `ApiCall` values and replies are success or failure. The disable route it posts to, which the backend does not define, is not modelled.
- The ad-group requests have no definition in the repository: api.ts exports none of `getAdGroups`, `deleteAdGroup`, `pauseAdGroup`, `enableAdGroup` (imported at AdGroupList.tsx:3) or `createAdGroup`, `updateAdGroup` (imported at AdGroupForm.tsx:3), and frontend/src/types.ts declares no `AdGroup` or `AdGroupFormData`. The ad-group `ApiCall` constructors and the two records stand for those missing definitions, shaped by how the components use them.
- No server-side ad-group behaviour is invented: the ad-group endpoints have no backend in the repository.
- The prop mismatch between App.tsx (`onViewAdGroups`) and CampaignList (which takes only `onNewCampaign`) is not modelled. The App handlers are modelled without a caller.
- AdGroupList's refetch when `campaign.id` changes is not modelled. `campaignId` is a constant of the controller.
- HTML constraint validation (`required`, `maxLength`, number ranges) in the form inputs is not modelled. Only the `handleSubmit` name check is.
- Rendering, animation, toasts, confetti and the performance stats other than ROAS are presentation only.
- backend/config.py is not part of this model. Mock versus live mode is the `Mode` parameter.
- AdGroupFormView.AdGroupFormController.HandleSubmit: it does not require step 4, because a form can also be submitted implicitly (Enter in an input) on any step.

## Findings

| source | as written | input that shows it | evidently intended | confidence | as-written member | corrected member |
|---|---|---|---|---|---|---|
| backend/app.py:76-77 | `get_or_404` runs inside `try ... except Exception`, so its NotFound is caught and answered 500 | POST `/api/campaigns/<unknown uuid>/publish` (or `/pause`) | 404 for an unknown campaign | not executed | CampaignApi.LookupAsWritten | CampaignApi.LookupRow |
| backend/google_ads_service.py:166 | the field mask is built with `protobuf.field_mask_pb2`, but `protobuf` is never imported | any live-mode `pause_campaign(id)`: NameError every time | a PAUSED update with mask `["status"]` that succeeds when the API accepts it | not executed | AdsService.PauseAsWritten | AdsService.PauseCampaign |

`CampaignApi.LookupAsWrittenAnswers500` shows the first discrepancy.
`AdsService.PauseAsWrittenNeverSucceedsLive` shows the second. The store
uses the corrected members: `CampaignStore.Publish` and
`CampaignStore.Pause` answer 404 for an unknown id, and pause through
`PauseCampaign`.
